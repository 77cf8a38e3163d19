/** Workshop2 machine.py: the five machine variants, their base
    specifications, the material adjustment and the price of a machine
    with the games attached to it. */
module Workshop2Machine {
  import opened Basics
  import Workshop2Game

  /** The five concrete machine classes, each with its own extra attributes. */
  datatype Variant =
    | DanceRevolution(difficulties: seq<string>, arrowCardinalities: seq<string>, controlsPrice: real)
    | ClassicalArcade
    | ShootingMachine(gunType: string)
    | RacingMachine(steeringType: string)
    | VirtualReality(glassesType: string, resolution: string)

  /** The attributes a variant fixes at construction. */
  datatype Specs = Specs(dimensions: string, weight: real, powerConsumption: real,
                         processor: string, memory: string, basePrice: real)

  /** The base price Machine.__init__ sets before a variant overrides it. */
  const DefaultBasePrice: real := 500.0

  /** The specifications each variant's constructor sets. */
  function BaseSpecs(v: Variant): (r: Specs)
    ensures r.dimensions == "1.5m x 1m x 2m"
    ensures 600.0 <= r.basePrice <= 800.0 && r.basePrice != DefaultBasePrice
    ensures 110.0 <= r.weight <= 140.0 && 220.0 <= r.powerConsumption <= 300.0
  {
    match v
    case DanceRevolution(_, _, _) => Specs("1.5m x 1m x 2m", 120.0, 250.0, "Quad-Core", "8GB", 700.0)
    case ClassicalArcade => Specs("1.5m x 1m x 2m", 110.0, 220.0, "Dual-Core", "4GB", 600.0)
    case ShootingMachine(_) => Specs("1.5m x 1m x 2m", 130.0, 240.0, "Quad-Core", "8GB", 650.0)
    case RacingMachine(_) => Specs("1.5m x 1m x 2m", 125.0, 230.0, "Hexa-Core", "16GB", 700.0)
    case VirtualReality(_, _) => Specs("1.5m x 1m x 2m", 140.0, 300.0, "Octa-Core", "16GB", 800.0)
  }

  /** Multipliers for base price, weight and power consumption. */
  datatype Factors = Factors(price: real, weight: real, power: real)

  /** The factor each material applies to each spec, as a table; an
      unknown material scales nothing. */
  function MaterialFactors(material: string): Factors
  {
    if material == "wood" then Factors(0.95, 1.10, 1.15)
    else if material == "aluminum" then Factors(1.10, 0.95, 1.0)
    else if material == "carbon fiber" then Factors(1.20, 0.85, 0.90)
    else Factors(1.0, 1.0, 1.0)
  }

  /** adjust_attributes, written once for all five variants: the `*=`
      updates of each branch, and no else branch. */
  function Adjust(s: Specs, material: string): (r: Specs)
    ensures r.dimensions == s.dimensions && r.processor == s.processor && r.memory == s.memory
    ensures r.basePrice == s.basePrice * MaterialFactors(material).price
    ensures r.weight == s.weight * MaterialFactors(material).weight
    ensures r.powerConsumption == s.powerConsumption * MaterialFactors(material).power
  {
    if material == "wood" then
      s.(basePrice := s.basePrice * 0.95, weight := s.weight * 1.10,
         powerConsumption := s.powerConsumption * 1.15)
    else if material == "aluminum" then
      s.(basePrice := s.basePrice * 1.10, weight := s.weight * 0.95)
    else if material == "carbon fiber" then
      s.(basePrice := s.basePrice * 1.20, weight := s.weight * 0.85,
         powerConsumption := s.powerConsumption * 0.90)
    else s
  }

  /** What calculate_price adds for a game of price p:
      `p * (1.10 if p * 1.10 else 1)`. The test is false only for p = 0,
      where both factors give 0, so every price is marked up. */
  function Contribution(p: real): (r: real)
    ensures r == p * 1.10
  {
    p * (if p * 1.10 != 0.0 then 1.10 else 1.0)
  }

  /** The games' part of calculate_price, accumulated left to right. */
  function MarkedUpTotal(prices: seq<real>): real
  {
    if prices == [] then 0.0
    else MarkedUpTotal(prices[..|prices| - 1]) + Contribution(prices[|prices| - 1])
  }

  /** The stored prices of a list of Game objects, in order. */
  function Prices(games: seq<Workshop2Game.Game>): (r: seq<real>)
    ensures |r| == |games| && forall i :: 0 <= i < |games| ==> r[i] == games[i].price
  {
    seq(|games|, i requires 0 <= i < |games| => games[i].price)
  }

  class Machine {
    const machineId: string
    const variant: Variant
    const material: string
    const color: string
    const playerCount: int
    const dimensions: string
    const processor: string
    const memory: string
    var weight: real
    var powerConsumption: real
    var basePrice: real
    var games: seq<Workshop2Game.Game>

    function Attributes(): Specs
      reads this
    {
      Specs(dimensions, weight, powerConsumption, processor, memory, basePrice)
    }

    /** A variant's constructor: Machine.__init__ (no games, base price 500)
        followed by the variant's own specifications, which replace the 500. */
    constructor (machineId: string, variant: Variant, material: string, color: string, playerCount: int)
      ensures this.machineId == machineId && this.variant == variant
      ensures this.material == material && this.color == color && this.playerCount == playerCount
      ensures Attributes() == BaseSpecs(variant) && games == []
    {
      this.material, this.color, this.playerCount := material, color, playerCount;
      this.games := [];
      this.basePrice := DefaultBasePrice;
      this.machineId, this.variant := machineId, variant;
      var s := BaseSpecs(variant);
      this.dimensions, this.weight, this.powerConsumption := s.dimensions, s.weight, s.powerConsumption;
      this.processor, this.memory, this.basePrice := s.processor, s.memory, s.basePrice;
    }

    /** adjust_attributes: scales base price, weight and power consumption
        by the material's factors and touches nothing else. */
    method AdjustAttributes()
      modifies this
      ensures Attributes() == Adjust(old(Attributes()), material)
      ensures games == old(games)
    {
      if material == "wood" {
        basePrice := basePrice * 0.95;
        weight := weight * 1.10;
        powerConsumption := powerConsumption * 1.15;
      } else if material == "aluminum" {
        basePrice := basePrice * 1.10;
        weight := weight * 0.95;
      } else if material == "carbon fiber" {
        basePrice := basePrice * 1.20;
        weight := weight * 0.85;
        powerConsumption := powerConsumption * 0.90;
      }
    }

    /** add_game: the game goes at the end of the list. */
    method AddGame(game: Workshop2Game.Game)
      modifies this
      ensures games == old(games) + [game]
      ensures Attributes() == old(Attributes())
    {
      games := games + [game];
    }

    /** calculate_price, as written: the base price plus every attached
        game's stored price times 1.10. It changes nothing. */
    method CalculatePrice() returns (total: real)
      ensures total == basePrice + MarkedUpTotal(Prices(games))
      ensures total == basePrice + 1.10 * Sum(Prices(games))
    {
      total := basePrice;
      var i := 0;
      while i < |games|
        invariant 0 <= i <= |games|
        invariant total == basePrice + MarkedUpTotal(Prices(games[..i]))
      {
        assert Prices(games[..i + 1]) == Prices(games[..i]) + [games[i].price];
        total := total + games[i].price * (if games[i].price * 1.10 != 0.0 then 1.10 else 1.0);
        i := i + 1;
      }
      assert games[..i] == games;
      MarkedUpTotalScales(Prices(games));
    }

    /** The corrected price: the base price plus each attached
        game's stored price exactly once, a high-definition game's markup
        being part of that stored price already. */
    method FinalPrice() returns (total: real)
      ensures total == basePrice + Sum(Prices(games))
    {
      total := basePrice;
      var i := 0;
      while i < |games|
        invariant 0 <= i <= |games|
        invariant total == basePrice + Sum(Prices(games[..i]))
      {
        assert Prices(games[..i + 1]) == Prices(games[..i]) + [games[i].price];
        SumSnoc(Prices(games[..i]), games[i].price);
        total := total + games[i].price;
        i := i + 1;
      }
      assert games[..i] == games;
    }
  }

  /** calculate_price's games part is the plain sum scaled by 1.10. */
  lemma {:induction false} MarkedUpTotalScales(prices: seq<real>)
    ensures MarkedUpTotal(prices) == 1.10 * Sum(prices)
  {
    if prices != [] {
      MarkedUpTotalScales(prices[..|prices| - 1]);
    }
  }

  /** Each variant's (weight, power consumption, base price) before adjustment. */
  lemma BaseSpecsTable(v: Variant)
    ensures v.DanceRevolution? ==> (BaseSpecs(v).weight, BaseSpecs(v).powerConsumption, BaseSpecs(v).basePrice) == (120.0, 250.0, 700.0)
    ensures v.ClassicalArcade? ==> (BaseSpecs(v).weight, BaseSpecs(v).powerConsumption, BaseSpecs(v).basePrice) == (110.0, 220.0, 600.0)
    ensures v.ShootingMachine? ==> (BaseSpecs(v).weight, BaseSpecs(v).powerConsumption, BaseSpecs(v).basePrice) == (130.0, 240.0, 650.0)
    ensures v.RacingMachine? ==> (BaseSpecs(v).weight, BaseSpecs(v).powerConsumption, BaseSpecs(v).basePrice) == (125.0, 230.0, 700.0)
    ensures v.VirtualReality? ==> (BaseSpecs(v).weight, BaseSpecs(v).powerConsumption, BaseSpecs(v).basePrice) == (140.0, 300.0, 800.0)
    ensures BaseSpecs(v).basePrice != DefaultBasePrice
  {
  }

  /** A material other than the three known ones leaves every specification as it was. */
  lemma AdjustUnknownMaterial(s: Specs, material: string)
    requires material != "wood" && material != "aluminum" && material != "carbon fiber"
    ensures Adjust(s, material) == s
  {
  }

  /** Aluminum changes price and weight and keeps the power consumption. */
  lemma AdjustAluminumKeepsPower(s: Specs)
    ensures Adjust(s, "aluminum").powerConsumption == s.powerConsumption
    ensures Adjust(s, "aluminum").basePrice == s.basePrice * 1.10
    ensures Adjust(s, "aluminum").weight == s.weight * 0.95
  {
  }

  /** An aluminum ClassicalArcade: base price 660, weight 104.5, power 220. */
  lemma ClassicalArcadeAluminum()
    ensures Adjust(BaseSpecs(ClassicalArcade), "aluminum") ==
      BaseSpecs(ClassicalArcade).(basePrice := 660.0, weight := 104.5)
    ensures Adjust(BaseSpecs(ClassicalArcade), "aluminum").powerConsumption == 220.0
  {
  }

  /** Nothing stops a second adjustment, and a second one compounds: for a
      known material with a price factor other than 1, adjusting twice
      gives a different base price than adjusting once. */
  lemma AdjustCompounds(s: Specs, material: string)
    requires s.basePrice != 0.0
    requires material == "wood" || material == "aluminum" || material == "carbon fiber"
    ensures Adjust(Adjust(s, material), material).basePrice != Adjust(s, material).basePrice
  {
    var f := MaterialFactors(material).price;
    assert f != 1.0 && f != 0.0;
    assert Adjust(Adjust(s, material), material).basePrice == s.basePrice * f * f;
  }

  /** The double markup: base price 700 with a high-definition game given
      50 (stored 55) and a standard game of 20. calculate_price yields
      782.5; each stored price counted once, as the Workshop2 CLI total
      (cli.py:155-157) counts it, gives 775. */
  lemma HighDefinitionMarkedUpTwice()
    ensures var prices := [Workshop2Game.StoredPrice(Workshop2Game.HighDefinition, 50.0),
                           Workshop2Game.StoredPrice(Workshop2Game.Standard, 20.0)];
            700.0 + MarkedUpTotal(prices) == 782.5 && 700.0 + Sum(prices) == 775.0
  {
    var prices := [Workshop2Game.StoredPrice(Workshop2Game.HighDefinition, 50.0),
                   Workshop2Game.StoredPrice(Workshop2Game.Standard, 20.0)];
    assert prices[..1] == [55.0] && prices[..1][..0] == [];
    assert MarkedUpTotal(prices[..1]) == 60.5;
    assert Sum(prices[..1]) == 55.0;
  }
}
