/** Workshop1 cli.py: registering users and finalizing the purchase of the
    single machine type, with the re-prompting loops of the first generation. */
module Workshop1Cli {
  import opened Basics
  import opened Text
  import A = Workshop1Arcade

  /** validate_name: the boolean form of User.validate_name. */
  function ValidateName(name: string): (r: bool)
    ensures r <==> A.ValidateName(name) == Some(name)
  {
    NameAccepted(name)
  }

  /** validate_phone: the boolean form of User.validate_phone. */
  function ValidatePhone(phone: string): (r: bool)
    ensures r <==> A.ValidatePhone(phone) == Some(phone)
  {
    PhoneAccepted(phone)
  }

  const ValidMaterials: seq<string> := ["wood", "aluminum", "carbon fiber"]

  predicate IsMaterial(answer: string) { answer in ValidMaterials }

  predicate IsPlayerCount(answer: string) { answer == "1" || answer == "2" }

  /** int(answer) for an accepted player count. */
  function PlayerNumber(answer: string): int
  {
    if answer == "1" then 1 else 2
  }

  /** A question asked again until an answer passes: the first answer that
      passes, or None when the answers run out (input() raising EOFError). */
  function FirstAccepted(answers: seq<string>, accept: string -> bool): (r: Option<string>)
    ensures r.Some? ==> accept(r.value) && r.value in answers
    ensures r.Some? ==> exists k :: 0 <= k < |answers| && r.value == answers[k] &&
                                    forall j :: 0 <= j < k ==> !accept(answers[j])
    ensures r.None? <==> forall i :: 0 <= i < |answers| ==> !accept(answers[i])
  {
    match FirstWhere(answers, accept)
    case None => None
    case Some(k) => Some(answers[k])
  }

  /** The `while True: ... if ok: break` loops of create_user and finalize_purchase. */
  method Ask(answers: seq<string>, accept: string -> bool) returns (r: Option<string>)
    ensures r == FirstAccepted(answers, accept)
  {
    var i := 0;
    while i < |answers| && !accept(answers[i])
      invariant 0 <= i <= |answers|
      invariant forall j :: 0 <= j < i ==> !accept(answers[j])
    {
      i := i + 1;
    }
    r := if i < |answers| then Some(answers[i]) else None;
  }

  /** The game a code names: the first loaded game with that id, as a list of zero or one. */
  function Found(catalog: seq<A.GameData>, code: string): (r: seq<A.GameData>)
    ensures |r| <= 1
    ensures r == [] <==> forall i :: 0 <= i < |catalog| ==> catalog[i].gameId != code
    ensures r != [] ==> r[0] in catalog && r[0].gameId == code
    ensures r != [] ==> exists k :: 0 <= k < |catalog| && r[0] == catalog[k] &&
                                    forall j :: 0 <= j < k ==> catalog[j].gameId != code
  {
    match FirstWhere(catalog, (g: A.GameData) => g.gameId == code)
    case None => []
    case Some(k) => [catalog[k]]
  }

  /** The game loop: the games found for the codes typed before the first
      "done" (in any case), in order; None when the answers run out first. */
  function SelectGames(catalog: seq<A.GameData>, codes: seq<string>): (r: Option<seq<A.GameData>>)
    ensures r.Some? ==> forall g :: g in r.value ==> g in catalog
  {
    if codes == [] then None
    else if IsDone(codes[0]) then Some([])
    else Prepend(Found(catalog, codes[0]), SelectGames(catalog, codes[1..]))
  }

  /** The game loop ends with a selection exactly when one of the codes
      typed is "done"; otherwise input runs out first. */
  lemma {:induction false} SelectGamesFinishes(catalog: seq<A.GameData>, codes: seq<string>)
    ensures SelectGames(catalog, codes).Some? <==> exists i :: 0 <= i < |codes| && IsDone(codes[i])
  {
    if codes != [] && !IsDone(codes[0]) {
      SelectGamesFinishes(catalog, codes[1..]);
      if exists i :: 0 <= i < |codes| && IsDone(codes[i]) {
        var i :| 0 <= i < |codes| && IsDone(codes[i]);
        assert codes[1..][i - 1] == codes[i];
      }
      if exists i :: 0 <= i < |codes[1..]| && IsDone(codes[1..][i]) {
        var i :| 0 <= i < |codes[1..]| && IsDone(codes[1..][i]);
        assert IsDone(codes[i + 1]);
      }
    } else if codes != [] {
      assert IsDone(codes[0]);
    }
  }

  /** The titles of loaded game data, in order; `Titles` reads the same
      field from the Game objects the machine holds. */
  function GameTitles(games: seq<A.GameData>): (r: seq<string>)
    ensures |r| == |games| && forall i :: 0 <= i < |games| ==> r[i] == games[i].title
  {
    seq(|games|, i requires 0 <= i < |games| => games[i].title)
  }

  /** A new Game built from a loaded one: same id, title and category, no reviews. */
  ghost predicate CopyOf(g: A.Game, d: A.GameData)
    reads g
  {
    g.gameId == d.gameId && g.title == d.title && g.category == d.category && g.reviews == []
  }

  /** One found game added to the machine: `machine.add_game(Game(...))`. */
  method AddCopy(machine: A.ArcadeMachine, game: A.GameData) returns (copy: A.Game)
    modifies machine
    ensures fresh(copy) && CopyOf(copy, game)
    ensures machine.games == old(machine.games) + [copy]
  {
    copy := new A.Game(game.gameId, game.title, game.category, None);
    machine.AddGame(copy);
  }

  /** The game loop of finalize_purchase: each found game is added to the
      machine as a new Game with the same id, title and category and no
      reviews; an unknown code adds nothing. */
  method AddGames(machine: A.ArcadeMachine, catalog: seq<A.GameData>, codes: seq<string>)
    returns (picked: Option<seq<A.GameData>>, ghost copies: seq<A.Game>)
    modifies machine
    ensures picked == SelectGames(catalog, codes)
    ensures machine.games == old(machine.games) + copies
    ensures forall j :: 0 <= j < |copies| ==> fresh(copies[j])
    ensures picked.Some? ==> |copies| == |picked.value|
    ensures picked.Some? ==> forall j :: 0 <= j < |copies| ==> CopyOf(copies[j], picked.value[j])
  {
    var added: seq<A.GameData> := [];
    copies := [];
    var i := 0;
    assert codes[i..] == codes;
    PrependNothing(SelectGames(catalog, codes));
    while i < |codes| && !IsDone(codes[i])
      invariant 0 <= i <= |codes|
      invariant SelectGames(catalog, codes) == Prepend(added, SelectGames(catalog, codes[i..]))
      invariant machine.games == old(machine.games) + copies
      invariant |copies| == |added|
      invariant forall j :: 0 <= j < |copies| ==> fresh(copies[j]) && CopyOf(copies[j], added[j])
    {
      assert codes[i..][1..] == codes[i + 1..];
      PrependTwice(added, Found(catalog, codes[i]), SelectGames(catalog, codes[i + 1..]));
      var k := Found(catalog, codes[i]);
      if k != [] {
        var copy := AddCopy(machine, k[0]);
        copies := copies + [copy];
        assert machine.games == old(machine.games) + copies;
      }
      added := added + k;
      i := i + 1;
    }
    picked := if i == |codes| then None else Some(added);
    assert i < |codes| ==> SelectGames(catalog, codes[i..]) == Some([]);
    assert added + [] == added;
  }

  /** How finalize_purchase ends. NotANumber: the id typed is not an
      integer and int() raises. InputEnded: the answers ran out inside a
      loop. NoGames: the machine's finalize_purchase refused. */
  datatype FinalizeOutcome =
    | UnknownUser | NotANumber | InputEnded | NoGames | Finalized(purchase: A.PurchaseRecord)

  /** finalize_purchase from the number of (positionally numbered) users,
      the loaded games and the answers given, to its outcome. The id test
      `any(user.id == int(user_id) for user in users)` parses only when
      there is a user to compare with. */
  function FinalizeResult(userCount: nat, catalog: seq<A.GameData>, userIdText: string, address: string,
                          materialAnswers: seq<string>, color: string, playerAnswers: seq<string>,
                          codes: seq<string>, date: string): (r: FinalizeOutcome)
    ensures r.UnknownUser? <==>
      userCount == 0 || (ParseInt(userIdText).Some? && !(1 <= ParseInt(userIdText).value <= userCount))
    ensures r.NotANumber? <==> userCount > 0 && ParseInt(userIdText).None?
    ensures r.NoGames? ==> SelectGames(catalog, codes) == Some([])
    ensures r.InputEnded? <==>
      userCount > 0 && ParseInt(userIdText).Some? && 1 <= ParseInt(userIdText).value <= userCount &&
      (FirstAccepted(materialAnswers, IsMaterial).None? || FirstAccepted(playerAnswers, IsPlayerCount).None? ||
       SelectGames(catalog, codes).None?)
  {
    if userCount == 0 then UnknownUser
    else match ParseInt(userIdText)
      case None => NotANumber
      case Some(id) =>
        if !(1 <= id <= userCount) then UnknownUser
        else match FirstAccepted(materialAnswers, IsMaterial)
          case None => InputEnded
          case Some(material) =>
            match FirstAccepted(playerAnswers, IsPlayerCount)
            case None => InputEnded
            case Some(players) =>
              match SelectGames(catalog, codes)
              case None => InputEnded
              case Some(picked) =>
                if picked == [] then NoGames
                else Finalized(A.PurchaseRecord(userIdText, address,
                  A.MachineSnapshot(material, color, PlayerNumber(players), GameTitles(picked)), date))
  }

  /** show_user_purchases: the purchases whose user_id is the text typed,
      in log order; None where load_purchases raises. */
  function ShowUserPurchases(store: Stored<A.PurchaseRecord>, userIdText: string): (r: Option<seq<A.PurchaseRecord>>)
    ensures r.Some? <==> !(store.Empty? || store.Unreadable?)
    ensures store.Entries? ==> forall p :: p in r.value <==> p in store.items && p.userId == userIdText
    ensures store.Missing? || store.Hollow? ==> r == Some([])
  {
    match A.LoadPurchases(store)
    case None => None
    case Some(purchases) => Some(Filter(purchases, (p: A.PurchaseRecord) => p.userId == userIdText))
  }

  /** The state main works on: the users loaded at start and extended by
      create_user, games.json, and purchases.json. */
  class Shop {
    var users: seq<A.User>
    const games: Stored<A.GameDict>
    const log: A.PurchaseFile

    /** The users are numbered 1..n by position, as load_users leaves them
        and create_user keeps them. */
    ghost predicate Valid()
      reads this, users
    {
      forall i :: 0 <= i < |users| ==> users[i].id == Some(i + 1)
    }

    /** `any(user.id == id for user in users)` */
    predicate Registered(id: int)
      reads this, users
    {
      exists i :: 0 <= i < |users| && users[i].id == Some(id)
    }

    constructor (users: seq<A.User>, games: Stored<A.GameDict>, log: A.PurchaseFile)
      requires forall i :: 0 <= i < |users| ==> users[i].id == Some(i + 1)
      ensures Valid() && this.users == users && this.games == games && this.log == log
    {
      this.users, this.games, this.log := users, games, log;
    }

    /** With positional ids, the registered ids are exactly 1..n. */
    lemma RegisteredIff(id: int)
      requires Valid()
      ensures Registered(id) <==> 1 <= id <= |users|
    {
      if 1 <= id <= |users| {
        assert users[id - 1].id == Some(id);
      }
    }

    /** create_user: asks until a valid name, then until a valid phone,
        and appends one new User with id len(users) + 1, so the ids stay
        positional. Nothing is added when the answers run out. */
    method CreateUser(nameAnswers: seq<string>, phoneAnswers: seq<string>) returns (id: Option<int>)
      requires Valid()
      modifies this
      ensures Valid()
      ensures var name := FirstAccepted(nameAnswers, ValidateName);
              var phone := FirstAccepted(phoneAnswers, ValidatePhone);
              if name.None? || phone.None? then id == None && users == old(users)
              else
                && id == Some(|old(users)| + 1)
                && |users| == |old(users)| + 1 && users[..|old(users)|] == old(users)
                && fresh(users[|old(users)|])
                && users[|old(users)|].name == name && users[|old(users)|].phone == phone
    {
      var name := Ask(nameAnswers, ValidateName);
      if name.None? {
        return None;
      }
      var phone := Ask(phoneAnswers, ValidatePhone);
      if phone.None? {
        return None;
      }
      var user := new A.User(name, phone);
      user.id := Some(|users| + 1);
      users := users + [user];
      id := user.id;
    }

    /** finalize_purchase: its outcome is FinalizeResult's, and the log
        changes only when a purchase is finalized, by save_purchases. */
    method FinalizePurchase(userIdText: string, address: string, materialAnswers: seq<string>,
                            color: string, playerAnswers: seq<string>, codes: seq<string>, date: string)
      returns (outcome: FinalizeOutcome)
      requires Valid()
      modifies log
      ensures outcome == FinalizeResult(|users|, A.LoadGames(games), userIdText, address,
                                        materialAnswers, color, playerAnswers, codes, date)
      ensures log.contents == if outcome.Finalized? then A.AfterSave(old(log.contents), outcome.purchase)
                              else old(log.contents)
    {
      if users == [] {
        return UnknownUser;
      }
      var id := ParseInt(userIdText);
      if id.None? {
        return NotANumber;
      }
      RegisteredIff(id.value);
      if !Registered(id.value) {
        return UnknownUser;
      }
      var material := Ask(materialAnswers, IsMaterial);
      if material.None? {
        return InputEnded;
      }
      var players := Ask(playerAnswers, IsPlayerCount);
      if players.None? {
        return InputEnded;
      }
      var machine := new A.ArcadeMachine(material.value, color, PlayerNumber(players.value));
      var picked, copies := AddGames(machine, A.LoadGames(games), codes);
      if picked.None? {
        return InputEnded;
      }
      assert A.Titles(machine.games) == GameTitles(picked.value);
      var purchase := machine.FinalizePurchase(userIdText, address, date, log);
      if purchase.None? {
        return NoGames;
      }
      outcome := Finalized(purchase.value);
    }
  }

  /** An id that is not registered aborts before any machine is built or record written. */
  lemma UnknownUserWritesNothing(userCount: nat, catalog: seq<A.GameData>, userIdText: string, address: string,
                                 materialAnswers: seq<string>, color: string, playerAnswers: seq<string>,
                                 codes: seq<string>, date: string)
    requires ParseInt(userIdText).Some? ==> !(1 <= ParseInt(userIdText).value <= userCount)
    ensures !FinalizeResult(userCount, catalog, userIdText, address, materialAnswers, color,
                            playerAnswers, codes, date).Finalized?
  {
  }

  /** The zero-games rule of this generation: a purchase with no game found is refused. */
  lemma ZeroGamesRefused(userCount: nat, catalog: seq<A.GameData>, userIdText: string, address: string,
                         materialAnswers: seq<string>, color: string, playerAnswers: seq<string>,
                         codes: seq<string>, date: string)
    requires SelectGames(catalog, codes) == Some([])
    ensures !FinalizeResult(userCount, catalog, userIdText, address, materialAnswers, color,
                            playerAnswers, codes, date).Finalized?
  {
  }

  /** A finalized record: a registered id, the text typed as user_id, one
      of the three materials, 1 or 2 players, and at least one game title,
      in the order the codes were typed. */
  lemma FinalizedRecord(userCount: nat, catalog: seq<A.GameData>, userIdText: string, address: string,
                        materialAnswers: seq<string>, color: string, playerAnswers: seq<string>,
                        codes: seq<string>, date: string)
    requires FinalizeResult(userCount, catalog, userIdText, address, materialAnswers, color,
                            playerAnswers, codes, date).Finalized?
    ensures var p := FinalizeResult(userCount, catalog, userIdText, address, materialAnswers, color,
                                    playerAnswers, codes, date).purchase;
            && ParseInt(userIdText).Some? && 1 <= ParseInt(userIdText).value <= userCount
            && p.userId == userIdText && p.address == address && p.date == date
            && p.machine.material in ValidMaterials && p.machine.color == color
            && (p.machine.playerCount == 1 || p.machine.playerCount == 2)
            && SelectGames(catalog, codes).Some?
            && p.machine.games == GameTitles(SelectGames(catalog, codes).value)
            && |p.machine.games| >= 1
  {
  }

  /** The id create_user prints, typed back as written, passes the user
      check: the purchase goes on to the material question. */
  lemma ShownIdAccepted(userCount: nat, id: nat, catalog: seq<A.GameData>, address: string,
                        materialAnswers: seq<string>, color: string, playerAnswers: seq<string>,
                        codes: seq<string>, date: string)
    requires 1 <= id <= userCount
    ensures var o := FinalizeResult(userCount, catalog, Decimal(id), address, materialAnswers, color,
                                    playerAnswers, codes, date);
            !o.UnknownUser? && !o.NotANumber?
  {
    ParseDecimal(id);
  }

  /** A code that names no game leaves the selection as it was. */
  lemma {:induction false} UnknownCodeIgnored(catalog: seq<A.GameData>, code: string, rest: seq<string>)
    requires !IsDone(code)
    requires forall i :: 0 <= i < |catalog| ==> catalog[i].gameId != code
    ensures SelectGames(catalog, [code] + rest) == SelectGames(catalog, rest)
  {
    assert ([code] + rest)[1..] == rest;
    PrependNothing(SelectGames(catalog, rest));
  }

  /** "done" in any letter case ends the loop at once. */
  lemma DoneInAnyCase(catalog: seq<A.GameData>, rest: seq<string>)
    ensures SelectGames(catalog, ["done"] + rest) == Some([])
    ensures SelectGames(catalog, ["DONE"] + rest) == Some([])
    ensures SelectGames(catalog, ["Done"] + rest) == Some([])
  {
    assert (["done"] + rest)[0] == "done" && (["DONE"] + rest)[0] == "DONE" && (["Done"] + rest)[0] == "Done";
    assert Lower("DONE") == "done" && Lower("Done") == "done" && Lower("done") == "done";
  }

  /** After a finalized purchase is saved to a list log, showing the
      purchases for the same typed id lists the earlier ones and then it. */
  lemma FinalizeThenShow(items: seq<A.PurchaseRecord>, p: A.PurchaseRecord)
    ensures ShowUserPurchases(A.AfterSave(Entries(items), p), p.userId) ==
            Some(Filter(items, (q: A.PurchaseRecord) => q.userId == p.userId) + [p])
  {
    FilterAppend(items, [p], (q: A.PurchaseRecord) => q.userId == p.userId);
    assert [p][..0] == [];
  }

  /** The record keeps the text typed, not the number it parses to: a
      purchase finalized as "01" by user 1 is not listed for "1". */
  lemma TypedIdKept(p: A.PurchaseRecord)
    requires p.userId == "01"
    ensures ParseInt("01") == ParseInt("1") == Some(1)
    ensures ShowUserPurchases(Entries([p]), "1") == Some([])
  {
    assert "01"[..1] == "0";
    assert [p][..0] == [];
  }
}
