/** Workshop1 arcade_machine.py: the single machine type of the first
    generation, its users and games, and the list logic of the JSON
    stores (purchases appended, users renumbered, games rebuilt). */
module Workshop1Arcade {
  import opened Basics
  import opened Text
  import Workshop2User

  /** User.validate_name: the name itself when, spaces removed, it is all letters; None otherwise. */
  function ValidateName(name: string): (r: Option<string>)
    ensures r.Some? ==> r.value == name
    ensures r.Some? <==>
      (forall i :: 0 <= i < |name| ==> name[i] == ' ' || IsLetter(name[i])) &&
      (exists i :: 0 <= i < |name| && IsLetter(name[i]))
  {
    NameAcceptedIff(name);
    if NameAccepted(name) then Some(name) else None
  }

  /** User.validate_phone: the phone itself when it is 1 to 15 digits; None otherwise. */
  function ValidatePhone(phone: string): (r: Option<string>)
    ensures r.Some? ==> r.value == phone
    ensures r.Some? <==> 0 < |phone| <= 15 && forall i :: 0 <= i < |phone| ==> IsDigit(phone[i])
  {
    PhoneAcceptedIff(phone);
    if PhoneAccepted(phone) then Some(phone) else None
  }

  /** The `isinstance(x, str)` half of both validators: a stored value
      that is not a string (None here) is rejected. */
  function ValidateStored(v: Option<string>, validate: string -> Option<string>): Option<string>
  {
    match v
    case None => None
    case Some(s) => validate(s)
  }

  /** The first generation's validators accept and reject exactly as the second's. */
  lemma SameAsWorkshop2(name: string, phone: string)
    ensures ValidateName(name) == Workshop2User.ValidateName(name)
    ensures ValidatePhone(phone) == Workshop2User.ValidatePhone(phone)
  {
  }

  class User {
    var id: Option<int>
    const name: Option<string>
    const phone: Option<string>

    /** User(name, phone): id None, name and phone validated (None when rejected). */
    constructor (name: Option<string>, phone: Option<string>)
      ensures id == None
      ensures this.name == ValidateStored(name, ValidateName)
      ensures this.phone == ValidateStored(phone, ValidatePhone)
    {
      this.id := None;
      this.name := ValidateStored(name, ValidateName);
      this.phone := ValidateStored(phone, ValidatePhone);
    }
  }

  /** One entry of users.json; a value that is not a string is None. */
  datatype UserDict = UserDict(id: Option<int>, name: Option<string>, phone: Option<string>)

  /** load_users: a missing file gives no users, and so does a JSON value
      that iterates as nothing; any other file that is not a JSON list
      raises (None here). Every stored entry becomes a new
      User, and the users are numbered 1..n by position whatever ids were stored. */
  method LoadUsers(store: Stored<UserDict>) returns (users: Option<seq<User>>)
    ensures store.Missing? || store.Hollow? ==> users == Some([])
    ensures store.Empty? || store.Unreadable? ==> users == None
    ensures store.Entries? ==> users.Some? && |users.value| == |store.items|
    ensures store.Entries? ==> forall i :: 0 <= i < |store.items| ==>
      && fresh(users.value[i])
      && users.value[i].id == Some(i + 1)
      && users.value[i].name == ValidateStored(store.items[i].name, ValidateName)
      && users.value[i].phone == ValidateStored(store.items[i].phone, ValidatePhone)
  {
    match store {
      case Missing => return Some([]);
      case Hollow => return Some([]);
      case Empty => return None;
      case Unreadable => return None;
      case Entries(dicts) =>
    }
    var dicts := store.items;
    var built: seq<User> := [];
    while |built| < |dicts|
      invariant |built| <= |dicts|
      invariant forall i :: 0 <= i < |built| ==> fresh(built[i]) && built[i].id == None
      invariant forall a, b :: 0 <= a < b < |built| ==> built[a] != built[b]
      invariant forall i :: 0 <= i < |built| ==> built[i].name == ValidateStored(dicts[i].name, ValidateName)
      invariant forall i :: 0 <= i < |built| ==> built[i].phone == ValidateStored(dicts[i].phone, ValidatePhone)
    {
      var u := new User(dicts[|built|].name, dicts[|built|].phone);
      built := built + [u];
    }
    var i := 0;
    while i < |built|
      invariant 0 <= i <= |built|
      invariant forall j :: 0 <= j < |built| ==> fresh(built[j])
      invariant forall a, b :: 0 <= a < b < |built| ==> built[a] != built[b]
      invariant forall j :: 0 <= j < i ==> built[j].id == Some(j + 1)
      invariant forall j :: i <= j < |built| ==> built[j].id == None
      modifies set j | 0 <= j < |built| :: built[j]
    {
      built[i].id := Some(i + 1);
      i := i + 1;
    }
    users := Some(built);
  }

  /** A review list given to the constructor, or the default []. */
  function ReviewsOrEmpty(reviews: Option<seq<Review>>): seq<Review>
  {
    if reviews.Some? then reviews.value else []
  }

  /** The values a Game holds. */
  datatype GameData = GameData(gameId: string, title: string, category: string, reviews: seq<Review>)

  /** One entry of games.json as to_dict writes it; None stands for an absent key. */
  datatype GameDict = GameDict(gameId: Option<string>, title: Option<string>,
                               category: Option<string>, reviews: Option<seq<Review>>)

  /** The Game that load_games builds from one entry: `game["game_id"]`,
      `game["title"]` and `game["category"]` must be present, a missing
      "reviews" key gives []. None where a key is missing (KeyError). */
  function Decode(d: GameDict): (r: Option<GameData>)
    ensures r.Some? <==> d.gameId.Some? && d.title.Some? && d.category.Some?
    ensures r.Some? ==> r.value.gameId == d.gameId.value && r.value.title == d.title.value
    ensures r.Some? ==> r.value.category == d.category.value && r.value.reviews == ReviewsOrEmpty(d.reviews)
  {
    if d.gameId.Some? && d.title.Some? && d.category.Some? then
      Some(GameData(d.gameId.value, d.title.value, d.category.value, ReviewsOrEmpty(d.reviews)))
    else None
  }

  /** load_games: the games rebuilt from the file; a missing or unreadable
      file, or any entry lacking a required key, gives [] (the exception is
      caught for the whole list). */
  function LoadGames(store: Stored<GameDict>): (r: seq<GameData>)
    ensures store.Entries? && (forall i :: 0 <= i < |store.items| ==> Decode(store.items[i]).Some?) ==>
      |r| == |store.items| && forall i :: 0 <= i < |r| ==> Some(r[i]) == Decode(store.items[i])
    ensures !store.Entries? ==> r == []
    ensures store.Entries? && (exists i :: 0 <= i < |store.items| && Decode(store.items[i]).None?) ==> r == []
  {
    match store
    case Entries(ds) =>
      if forall i :: 0 <= i < |ds| ==> Decode(ds[i]).Some? then
        seq(|ds|, i requires 0 <= i < |ds| => Decode(ds[i]).value)
      else []
    case _ => []
  }

  class Game {
    const gameId: string
    const title: string
    const category: string
    var reviews: seq<Review>

    /** Game(game_id, title, category, reviews=None) */
    constructor (gameId: string, title: string, category: string, reviews: Option<seq<Review>>)
      ensures this.gameId == gameId && this.title == title && this.category == category
      ensures this.reviews == ReviewsOrEmpty(reviews)
    {
      this.gameId, this.title, this.category := gameId, title, category;
      this.reviews := if reviews.Some? then reviews.value else [];
    }

    function Data(): GameData
      reads this
    {
      GameData(gameId, title, category, reviews)
    }

    /** add_review: one review at the end; no check that the user exists. */
    method AddReview(userId: string, review: string)
      modifies this
      ensures reviews == old(reviews) + [Review(userId, review)]
    {
      reviews := reviews + [Review(userId, review)];
    }

    /** to_dict: the four keys, and an entry that load_games turns back into this game. */
    function ToDict(): (d: GameDict)
      reads this
      ensures d.gameId.Some? && d.title.Some? && d.category.Some? && d.reviews.Some?
      ensures Decode(d) == Some(Data())
      ensures d == Encode(Data())
    {
      GameDict(Some(gameId), Some(title), Some(category), Some(reviews))
    }
  }

  /** A game's data as to_dict writes it (Game.ToDict is this of its Data()). */
  function Encode(d: GameData): GameDict
  {
    GameDict(Some(d.gameId), Some(d.title), Some(d.category), Some(d.reviews))
  }

  /** Saving games with to_dict and loading them back gives the same games. */
  lemma LoadSavedGames(games: seq<GameData>)
    ensures LoadGames(Entries(seq(|games|, i requires 0 <= i < |games| => Encode(games[i])))) == games
  {
    var ds := seq(|games|, i requires 0 <= i < |games| => Encode(games[i]));
    assert forall i :: 0 <= i < |ds| ==> Decode(ds[i]) == Some(games[i]);
  }

  /** A stored game without a "reviews" key loads with no reviews. */
  lemma MissingReviewsKey(gameId: string, title: string, category: string)
    ensures Decode(GameDict(Some(gameId), Some(title), Some(category), None)) ==
            Some(GameData(gameId, title, category, []))
  {
  }

  /** The machine part of a purchase record. */
  datatype MachineSnapshot = MachineSnapshot(material: string, color: string, playerCount: int, games: seq<string>)

  /** The purchase dictionary finalize_purchase builds; user_id is the text typed. */
  datatype PurchaseRecord = PurchaseRecord(userId: string, address: string, machine: MachineSnapshot, date: string)

  /** The titles of a list of Game objects, in order (reads their fields;
      the value-level projections of the CLIs cannot stand in for it). */
  function Titles(games: seq<Game>): (r: seq<string>)
    ensures |r| == |games| && forall i :: 0 <= i < |games| ==> r[i] == games[i].title
  {
    seq(|games|, i requires 0 <= i < |games| => games[i].title)
  }

  /** What save_purchases leaves in purchases.json: a missing or empty
      file becomes a one-record list, a list grows by the record at its
      end, and any other value is left as it was (it has no append, and
      the error is caught and printed before anything is written). */
  function AfterSave(store: Stored<PurchaseRecord>, p: PurchaseRecord): (r: Stored<PurchaseRecord>)
    ensures store.Unreadable? || store.Hollow? <==> r == store
    ensures !(store.Unreadable? || store.Hollow?) ==> r == Entries((if store.Entries? then store.items else []) + [p])
  {
    match store
    case Missing => Entries([p])
    case Empty => Entries([p])
    case Hollow => Hollow
    case Unreadable => Unreadable
    case Entries(items) => Entries(items + [p])
  }

  /** load_purchases together with the loop over its result in
      show_user_purchases: a missing file gives [], a JSON value that
      iterates as nothing gives no entries, an empty or malformed file
      raises, and so does looping over any other value that is not a
      list (None for all of these). */
  function LoadPurchases(store: Stored<PurchaseRecord>): (r: Option<seq<PurchaseRecord>>)
    ensures store.Missing? || store.Hollow? ==> r == Some([])
    ensures store.Entries? ==> r == Some(store.items)
    ensures store.Empty? || store.Unreadable? ==> r == None
  {
    match store
    case Missing => Some([])
    case Hollow => Some([])
    case Entries(items) => Some(items)
    case _ => None
  }

  /** purchases.json */
  class PurchaseFile {
    var contents: Stored<PurchaseRecord>

    constructor (contents: Stored<PurchaseRecord>)
      ensures this.contents == contents
    {
      this.contents := contents;
    }

    /** save_purchases */
    method SavePurchase(p: PurchaseRecord)
      modifies this
      ensures contents == AfterSave(old(contents), p)
    {
      var purchases: seq<PurchaseRecord>;
      match contents {
        case Unreadable => return;
        case Hollow => return;
        case Missing => purchases := [];
        case Empty => purchases := [];
        case Entries(items) => purchases := items;
      }
      purchases := purchases + [p];
      contents := Entries(purchases);
    }
  }

  class ArcadeMachine {
    const material: string
    const color: string
    const playerCount: int
    var games: seq<Game>

    constructor (material: string, color: string, playerCount: int)
      ensures this.material == material && this.color == color && this.playerCount == playerCount
      ensures games == []
    {
      this.material, this.color, this.playerCount := material, color, playerCount;
      this.games := [];
    }

    /** add_game: the game goes at the end of the list. */
    method AddGame(game: Game)
      modifies this
      ensures games == old(games) + [game]
    {
      games := games + [game];
    }

    /** finalize_purchase: with no games nothing is built or saved (None);
        otherwise the record of the machine's attributes and its game
        titles in order is built and handed to save_purchases. */
    method FinalizePurchase(userId: string, address: string, date: string, log: PurchaseFile)
      returns (purchase: Option<PurchaseRecord>)
      modifies log
      ensures purchase.None? <==> games == []
      ensures purchase.Some? ==>
        purchase.value == PurchaseRecord(userId, address, MachineSnapshot(material, color, playerCount, Titles(games)), date)
      ensures log.contents == if purchase.Some? then AfterSave(old(log.contents), purchase.value) else old(log.contents)
    {
      if games == [] {
        return None;
      }
      var record := PurchaseRecord(userId, address, MachineSnapshot(material, color, playerCount, Titles(games)), date);
      log.SavePurchase(record);
      purchase := Some(record);
    }
  }
}
