/** Workshop2 cli.py: registering users and buying a machine of one of the
    five types. The JSON files are held in memory: the users list that
    main passes around, the machine and game catalogues (never written by
    the CLI) and the purchase log. */
module Workshop2Cli {
  import opened Basics
  import opened Text
  import Workshop2User
  import Workshop2Game
  import Workshop2Machine

  type GameRecord = Workshop2Game.GameRecord

  /** One entry of users.json. A rejected name or phone is stored as null. */
  datatype UserRecord = UserRecord(id: int, name: Option<string>, phone: Option<string>)

  /** One entry of machines.json. */
  datatype MachineRecord = MachineRecord(
    machineId: string, kind: string, material: string, color: string, playerCount: int,
    dimensions: string, weight: real, powerConsumption: real, processor: string,
    memory: string, basePrice: real)

  /** The purchase summary buy_machine appends to purchases.json. */
  datatype Purchase = Purchase(
    userId: int, address: string, machineCode: string, material: string, color: string,
    playerCount: int, totalPrice: real, gamesAdded: seq<string>, purchaseDate: string)

  /** How buy_machine ends: one of its two early returns, the answers
      running out inside the game loop (input() raising EOFError), or a purchase. */
  datatype BuyOutcome = UnknownUser | UnknownMachine | InputEnded | Bought(summary: Purchase)

  /** What view_purchases shows: the "no purchases yet" message for a
      missing file, an uncaught error for an empty or malformed file or a
      non-list value whose items the filter cannot read, or the user's entries (none
      prints "No purchases found", as for `{}`). */
  datatype PurchaseView = NothingRecorded | StoreUnreadable | Listed(purchases: seq<Purchase>)

  /** `max([user["id"] for user in users], default=0)` */
  function MaxId(users: seq<UserRecord>): (m: int)
    ensures users == [] ==> m == 0
    ensures forall i :: 0 <= i < |users| ==> users[i].id <= m
    ensures users != [] ==> exists i :: 0 <= i < |users| && users[i].id == m
  {
    if |users| <= 1 then (if users == [] then 0 else users[0].id)
    else
      var m := MaxId(users[..|users| - 1]);
      if users[|users| - 1].id > m then users[|users| - 1].id else m
  }

  /** The id create_user gives a new user. */
  function NextId(users: seq<UserRecord>): int
  {
    MaxId(users) + 1
  }

  predicate UniqueIds(users: seq<UserRecord>)
  {
    forall i, j :: 0 <= i < j < |users| ==> users[i].id != users[j].id
  }

  /** `any(user["id"] == user_id for user in users)` */
  predicate HasUser(users: seq<UserRecord>, id: int)
  {
    exists i :: 0 <= i < |users| && users[i].id == id
  }

  /** The machine buy_machine picks: the first catalogue entry with the code. */
  function FindMachine(machines: seq<MachineRecord>, code: string): Option<nat>
  {
    FirstWhere(machines, (m: MachineRecord) => m.machineId == code)
  }

  /** The game record a code names: the first catalogue entry with that
      game_id, as a list of zero or one record. */
  function Found(catalog: seq<GameRecord>, code: string): (r: seq<GameRecord>)
    ensures |r| <= 1
    ensures r == [] <==> forall i :: 0 <= i < |catalog| ==> catalog[i].gameId != code
    ensures r != [] ==> r[0] in catalog && r[0].gameId == code
    ensures r != [] ==> exists k :: 0 <= k < |catalog| && r[0] == catalog[k] &&
                                    forall j :: 0 <= j < k ==> catalog[j].gameId != code
  {
    match FirstWhere(catalog, (g: GameRecord) => g.gameId == code)
    case None => []
    case Some(k) => [catalog[k]]
  }

  /** The game loop: the records found for the codes typed before the first
      "done" (in any case), in order; None when the answers run out first. */
  function SelectGames(catalog: seq<GameRecord>, codes: seq<string>): (r: Option<seq<GameRecord>>)
    ensures r.Some? ==> forall g :: g in r.value ==> g in catalog
  {
    if codes == [] then None
    else if IsDone(codes[0]) then Some([])
    else Prepend(Found(catalog, codes[0]), SelectGames(catalog, codes[1..]))
  }

  /** The game loop ends with a selection exactly when one of the codes
      typed is "done"; otherwise input runs out first. */
  lemma {:induction false} SelectGamesFinishes(catalog: seq<GameRecord>, codes: seq<string>)
    ensures SelectGames(catalog, codes).Some? <==> exists i :: 0 <= i < |codes| && IsDone(codes[i])
  {
    if codes != [] && !IsDone(codes[0]) {
      SelectGamesFinishes(catalog, codes[1..]);
      if exists i :: 0 <= i < |codes| && IsDone(codes[i]) {
        var i :| 0 <= i < |codes| && IsDone(codes[i]);
        assert codes[1..][i - 1] == codes[i];
      }
      if exists i :: 0 <= i < |codes[1..]| && IsDone(codes[1..][i]) {
        var i :| 0 <= i < |codes[1..]| && IsDone(codes[1..][i]);
        assert IsDone(codes[i + 1]);
      }
    } else if codes != [] {
      assert IsDone(codes[0]);
    }
  }

  /** The prices of catalogue records, in order; `Workshop2Machine.Prices`
      reads the same field from Game objects. */
  function GamePrices(games: seq<GameRecord>): (r: seq<real>)
    ensures |r| == |games| && forall i :: 0 <= i < |games| ==> r[i] == games[i].price
  {
    seq(|games|, i requires 0 <= i < |games| => games[i].price)
  }

  /** The titles of catalogue records, in order, as `games_added` lists them. */
  function Titles(games: seq<GameRecord>): (r: seq<string>)
    ensures |r| == |games| && forall i :: 0 <= i < |games| ==> r[i] == games[i].title
  {
    seq(|games|, i requires 0 <= i < |games| => games[i].title)
  }

  /** The overrides buy_machine applies to the machine it found: the
      material when the answer is "yes" (in any case), then the player
      count and the colour. The base price is not recomputed. */
  function Override(m: MachineRecord, materialAnswer: string, newMaterial: string,
                    playerCount: int, color: string): (r: MachineRecord)
    ensures r == m.(material := r.material, playerCount := playerCount, color := color)
    ensures r.material == (if IsYes(materialAnswer) then newMaterial else m.material)
    ensures r.basePrice == m.basePrice
  {
    var m1 := if IsYes(materialAnswer) then m.(material := newMaterial) else m;
    m1.(playerCount := playerCount).(color := color)
  }

  /** The end of buy_machine for the machine after its overrides: the
      summary of the games selected, or InputEnded when the game loop
      never saw "done". */
  function Receipt(m: MachineRecord, userId: int, address: string, machineCode: string, playerCount: int,
                   picked: Option<seq<GameRecord>>, now: string): BuyOutcome
  {
    match picked
    case None => InputEnded
    case Some(games) =>
      Bought(Purchase(userId, address, machineCode, m.material, m.color, playerCount,
                      m.basePrice + Sum(GamePrices(games)), Titles(games), now))
  }

  /** buy_machine from its answers to the summary it records. */
  function BuyResult(users: seq<UserRecord>, machines: seq<MachineRecord>, catalog: seq<GameRecord>,
                     userId: int, address: string, machineCode: string, materialAnswer: string,
                     newMaterial: string, playerCount: int, color: string, codes: seq<string>,
                     now: string): (r: BuyOutcome)
    ensures r.UnknownUser? <==> !HasUser(users, userId)
    ensures r.UnknownMachine? <==>
      HasUser(users, userId) && forall i :: 0 <= i < |machines| ==> machines[i].machineId != machineCode
    ensures r.InputEnded? <==>
      HasUser(users, userId) && FindMachine(machines, machineCode).Some? && SelectGames(catalog, codes).None?
  {
    if !HasUser(users, userId) then UnknownUser
    else match FindMachine(machines, machineCode)
      case None => UnknownMachine
      case Some(k) =>
        Receipt(Override(machines[k], materialAnswer, newMaterial, playerCount, color),
                userId, address, machineCode, playerCount, SelectGames(catalog, codes), now)
  }

  /** The log after buy_machine appends: a missing, empty or unreadable
      file counts as an empty list. */
  function Logged(store: Stored<Purchase>, p: Purchase): (r: Stored<Purchase>)
    ensures r.Entries? && |r.items| >= 1 && r.items[|r.items| - 1] == p
    ensures store.Entries? ==> r.items[..|r.items| - 1] == store.items
    ensures !store.Entries? ==> r.items == [p]
  {
    match store
    case Entries(items) => Entries(items + [p])
    case _ => Entries([p])
  }

  /** `[p for p in purchases if p.get("user_id") == user_id]` */
  function ForUser(purchases: seq<Purchase>, userId: int): (r: seq<Purchase>)
    ensures |r| <= |purchases|
    ensures forall p :: p in r <==> p in purchases && p.userId == userId
  {
    Filter(purchases, (p: Purchase) => p.userId == userId)
  }

  /** view_purchases */
  function ViewPurchases(store: Stored<Purchase>, userId: int): (r: PurchaseView)
    ensures store.Missing? <==> r.NothingRecorded?
    ensures store.Empty? || store.Unreadable? <==> r.StoreUnreadable?
    ensures store.Hollow? ==> r == Listed([])
    ensures store.Entries? ==> r.Listed? && forall p :: p in r.purchases <==> p in store.items && p.userId == userId
  {
    match store
    case Missing => NothingRecorded
    case Hollow => Listed([])
    case Empty => StoreUnreadable
    case Unreadable => StoreUnreadable
    case Entries(items) => Listed(ForUser(items, userId))
  }

  /** The total buy_machine charges: the machine's base price plus each
      selected game's stored price, with no markup. It changes nothing. */
  method TotalPrice(basePrice: real, picked: seq<GameRecord>) returns (total: real)
    ensures total == basePrice + Sum(GamePrices(picked))
  {
    total := basePrice;
    var i := 0;
    while i < |picked|
      invariant 0 <= i <= |picked|
      invariant total == basePrice + Sum(GamePrices(picked[..i]))
    {
      assert GamePrices(picked[..i + 1]) == GamePrices(picked[..i]) + [picked[i].price];
      SumSnoc(GamePrices(picked[..i]), picked[i].price);
      total := total + picked[i].price;
      i := i + 1;
    }
    assert picked[..i] == picked;
  }

  /** The whole state the CLI works on. */
  class Shop {
    var users: seq<UserRecord>
    const machines: seq<MachineRecord>
    const games: seq<GameRecord>
    var purchases: Stored<Purchase>

    constructor (users: seq<UserRecord>, machines: seq<MachineRecord>, games: seq<GameRecord>,
                 purchases: Stored<Purchase>)
      ensures this.users == users && this.machines == machines
      ensures this.games == games && this.purchases == purchases
    {
      this.users, this.machines, this.games, this.purchases := users, machines, games, purchases;
    }

    /** create_user: one record at the end, with id one above the largest
        id present (1 for no users), and the name and phone as User
        validated them, None included. */
    method CreateUser(name: string, phone: string) returns (id: int)
      modifies this
      ensures id == NextId(old(users))
      ensures forall i :: 0 <= i < |old(users)| ==> old(users)[i].id < id
      ensures users == old(users) + [UserRecord(id, Workshop2User.ValidateName(name), Workshop2User.ValidatePhone(phone))]
      ensures purchases == old(purchases)
    {
      id := MaxId(users) + 1;
      var user := Workshop2User.NewUser(name, phone);
      users := users + [UserRecord(id, user.name, user.phone)];
    }

    /** The game loop of buy_machine. It changes nothing. */
    method CollectGames(codes: seq<string>) returns (picked: Option<seq<GameRecord>>)
      ensures picked == SelectGames(games, codes)
    {
      var toAdd: seq<GameRecord> := [];
      var i := 0;
      assert codes[i..] == codes;
      PrependNothing(SelectGames(games, codes));
      while i < |codes| && !IsDone(codes[i])
        invariant 0 <= i <= |codes|
        invariant SelectGames(games, codes) == Prepend(toAdd, SelectGames(games, codes[i..]))
      {
        assert codes[i..][1..] == codes[i + 1..];
        PrependTwice(toAdd, Found(games, codes[i]), SelectGames(games, codes[i + 1..]));
        toAdd := toAdd + Found(games, codes[i]);
        i := i + 1;
      }
      picked := if i == |codes| then None else Some(toAdd);
      assert i < |codes| ==> SelectGames(games, codes[i..]) == Some([]);
      assert toAdd + [] == toAdd;
    }

    /** The second half of buy_machine: collects the games, totals the
        stored prices and appends the summary to the log. */
    method Checkout(machine: MachineRecord, userId: int, address: string, machineCode: string,
                    playerCount: int, codes: seq<string>, now: string) returns (outcome: BuyOutcome)
      modifies this
      ensures outcome == Receipt(machine, userId, address, machineCode, playerCount, SelectGames(games, codes), now)
      ensures users == old(users)
      ensures purchases == if outcome.Bought? then Logged(old(purchases), outcome.summary) else old(purchases)
    {
      var picked := CollectGames(codes);
      if picked.None? {
        return InputEnded;
      }
      var total := TotalPrice(machine.basePrice, picked.value);
      var summary := Purchase(userId, address, machineCode, machine.material, machine.color,
                              playerCount, total, Titles(picked.value), now);
      assert Receipt(machine, userId, address, machineCode, playerCount, picked, now) == Bought(summary);
      purchases := Logged(purchases, summary);
      outcome := Bought(summary);
    }

    /** buy_machine: checks the user, finds the machine, applies the
        overrides, then checks out. */
    method BuyMachine(userId: int, address: string, machineCode: string, materialAnswer: string,
                      newMaterial: string, playerCount: int, color: string, codes: seq<string>,
                      now: string) returns (outcome: BuyOutcome)
      modifies this
      ensures outcome == BuyResult(users, machines, games, userId, address, machineCode,
                                   materialAnswer, newMaterial, playerCount, color, codes, now)
      ensures users == old(users)
      ensures purchases == if outcome.Bought? then Logged(old(purchases), outcome.summary) else old(purchases)
    {
      if !(exists i :: 0 <= i < |users| && users[i].id == userId) {
        return UnknownUser;
      }
      var k := FindMachine(machines, machineCode);
      if k.None? {
        return UnknownMachine;
      }
      var machine := machines[k.value];
      if IsYes(materialAnswer) {
        machine := machine.(material := newMaterial);
      }
      machine := machine.(playerCount := playerCount);
      machine := machine.(color := color);
      assert machine == Override(machines[k.value], materialAnswer, newMaterial, playerCount, color);
      outcome := Checkout(machine, userId, address, machineCode, playerCount, codes, now);
    }
  }

  /** The id given to a new user is unused, so unique ids stay unique. */
  lemma NextIdKeepsIdsUnique(users: seq<UserRecord>, name: Option<string>, phone: Option<string>)
    requires UniqueIds(users)
    ensures UniqueIds(users + [UserRecord(NextId(users), name, phone)])
  {
    var us := users + [UserRecord(NextId(users), name, phone)];
    forall i, j | 0 <= i < j < |us| ensures us[i].id != us[j].id {
      if j == |users| {
        assert us[i].id <= MaxId(users);
      }
    }
  }

  /** With all ids negative the max is negative, so the rule can hand out
      an id that is not positive: users [-5] gets -4. */
  lemma NextIdAfterNegative()
    ensures NextId([UserRecord(-5, None, None)]) == -4
  {
  }

  /** An unknown user id or machine code returns before anything is recorded. */
  lemma EarlyReturnsRecordNothing(users: seq<UserRecord>, machines: seq<MachineRecord>, catalog: seq<GameRecord>,
                                  userId: int, address: string, machineCode: string, materialAnswer: string,
                                  newMaterial: string, playerCount: int, color: string, codes: seq<string>, now: string)
    requires !HasUser(users, userId) ||
             forall i :: 0 <= i < |machines| ==> machines[i].machineId != machineCode
    ensures !BuyResult(users, machines, catalog, userId, address, machineCode, materialAnswer,
                       newMaterial, playerCount, color, codes, now).Bought?
  {
  }

  /** A recorded purchase: the answers it copies, the catalogue machine's
      base price unadjusted, the material the override chose, and the total
      of the base price and the stored game prices with no markup. */
  lemma BoughtSummary(users: seq<UserRecord>, machines: seq<MachineRecord>, catalog: seq<GameRecord>,
                      userId: int, address: string, machineCode: string, materialAnswer: string,
                      newMaterial: string, playerCount: int, color: string, codes: seq<string>, now: string)
    requires BuyResult(users, machines, catalog, userId, address, machineCode, materialAnswer,
                       newMaterial, playerCount, color, codes, now).Bought?
    ensures var p := BuyResult(users, machines, catalog, userId, address, machineCode, materialAnswer,
                               newMaterial, playerCount, color, codes, now).summary;
            var m := machines[FindMachine(machines, machineCode).value];
            var picked := SelectGames(catalog, codes).value;
            && HasUser(users, userId) && m.machineId == machineCode
            && p.userId == userId && p.address == address && p.machineCode == machineCode
            && p.playerCount == playerCount && p.color == color && p.purchaseDate == now
            && p.material == (if IsYes(materialAnswer) then newMaterial else m.material)
            && p.totalPrice == m.basePrice + Sum(GamePrices(picked))
            && p.gamesAdded == Titles(picked)
  {
  }

  /** No zero-games rule in this generation: "done" straight away buys the
      bare machine at its catalogue base price. */
  lemma NoGamesStillBought(users: seq<UserRecord>, machines: seq<MachineRecord>, catalog: seq<GameRecord>,
                           userId: int, address: string, k: nat, materialAnswer: string,
                           newMaterial: string, playerCount: int, color: string, rest: seq<string>, now: string)
    requires HasUser(users, userId)
    requires k < |machines| && forall j :: 0 <= j < k ==> machines[j].machineId != machines[k].machineId
    ensures var r := BuyResult(users, machines, catalog, userId, address, machines[k].machineId,
                               materialAnswer, newMaterial, playerCount, color, ["done"] + rest, now);
            r.Bought? && r.summary.gamesAdded == [] && r.summary.totalPrice == machines[k].basePrice
  {
    assert IsDone((["done"] + rest)[0]);
    assert GamePrices([]) == [];
  }

  /** A code that names no game leaves the selection as it was. */
  lemma {:induction false} UnknownCodeIgnored(catalog: seq<GameRecord>, code: string, rest: seq<string>)
    requires !IsDone(code)
    requires forall i :: 0 <= i < |catalog| ==> catalog[i].gameId != code
    ensures SelectGames(catalog, [code] + rest) == SelectGames(catalog, rest)
  {
    assert ([code] + rest)[1..] == rest;
    match SelectGames(catalog, rest)
    case None =>
    case Some(s) => assert [] + s == s;
  }

  /** Every selected game is a catalogue record, and at most one is
      selected per code typed before "done". */
  lemma {:induction false} SelectedFromCatalog(catalog: seq<GameRecord>, codes: seq<string>)
    requires SelectGames(catalog, codes).Some?
    ensures |SelectGames(catalog, codes).value| < |codes|
    ensures forall g :: g in SelectGames(catalog, codes).value ==> g in catalog
  {
    if !IsDone(codes[0]) {
      SelectedFromCatalog(catalog, codes[1..]);
    }
  }

  /** After a purchase, view_purchases for the buyer shows what it showed
      before (nothing, for a file that was not a list) plus the new summary
      at the end; every other user's view of a list file is unchanged. */
  lemma PurchaseThenView(store: Stored<Purchase>, p: Purchase, userId: int)
    ensures var before := if store.Entries? then ForUser(store.items, userId) else [];
            ViewPurchases(Logged(store, p), userId) ==
              Listed(before + (if p.userId == userId then [p] else []))
  {
    var items := if store.Entries? then store.items else [];
    assert Logged(store, p) == Entries(items + [p]);
    ForUserSnoc(items, p, userId);
  }

  /** One more entry in the log adds it to the view of its own user only. */
  lemma ForUserSnoc(items: seq<Purchase>, p: Purchase, userId: int)
    ensures ForUser(items + [p], userId) == ForUser(items, userId) + (if p.userId == userId then [p] else [])
  {
    var mine := (q: Purchase) => q.userId == userId;
    FilterAppend(items, [p], mine);
    assert [p][..0] == [];
  }

  /** The two rules of this generation side by side: calculate_price on
      machine.py charges 10% of the game prices more than buy_machine's total. */
  lemma CliTotalVersusCalculatePrice(basePrice: real, games: seq<GameRecord>)
    ensures basePrice + Workshop2Machine.MarkedUpTotal(GamePrices(games)) ==
            basePrice + Sum(GamePrices(games)) + 0.10 * Sum(GamePrices(games))
  {
    Workshop2Machine.MarkedUpTotalScales(GamePrices(games));
  }
}
