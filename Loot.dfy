/** LootContainer: a world container that, when created, rolls how many
    items it will drop, rolls one rarity shared by all of them, and draws
    its templates from the item database. It drops its loot only once. */
module Loot {
  import opened RpgTypes
  import opened ItemStats
  import opened Database

  /** A spawned pickup: the template it shows and the rarity it is given. */
  datatype Pickup = Pickup(template: ItemTemplate, rarity: ItemRarity)

  /** The templates the drop loop takes: entry i is the template at index
      rolls[i], for the first `count` rolls. */
  function Draws(templates: seq<ItemTemplate>, rolls: seq<int>, count: nat): seq<ItemTemplate>
    requires count <= |rolls| && (count == 0 || |templates| > 0)
    requires forall i :: 0 <= i < count ==> RangeRoll(rolls[i], 0, |templates|)
  {
    if count == 0 then []
    else
      assert RangeRoll(rolls[count - 1], 0, |templates|);
      Draws(templates, rolls, count - 1) + [templates[rolls[count - 1]]]
  }

  /** There are exactly `count` draws, each one the template at its roll, so
      every draw is one of the database's templates. */
  lemma {:induction false} DrawsFacts(templates: seq<ItemTemplate>, rolls: seq<int>, count: nat)
    requires count <= |rolls| && (count == 0 || |templates| > 0)
    requires forall i :: 0 <= i < count ==> RangeRoll(rolls[i], 0, |templates|)
    ensures |Draws(templates, rolls, count)| == count
    ensures forall i :: 0 <= i < count ==> Draws(templates, rolls, count)[i] == templates[rolls[i]]
    ensures forall t :: t in Draws(templates, rolls, count) ==> t in templates
  {
    if count > 0 {
      DrawsFacts(templates, rolls, count - 1);
    }
  }

  /** The pickups DropLootAroundContainer spawns: one per template, in list
      order, each with the container's rarity. */
  function Pickups(templates: seq<ItemTemplate>, rarity: ItemRarity): (r: seq<Pickup>)
    ensures |r| == |templates|
    ensures forall i :: 0 <= i < |r| ==> r[i] == Pickup(templates[i], rarity)
  {
    if |templates| == 0 then []
    else Pickups(templates[..|templates| - 1], rarity) + [Pickup(templates[|templates| - 1], rarity)]
  }

  /** The rolled item count lies in the inclusive range [min, max] (it is
      min when max < min). */
  lemma ItemCountInclusive(countRoll: int, range: StatRange<int>)
    requires RangeRoll(countRoll, range.min, range.max + 1)
    ensures range.min <= range.max ==> range.min <= countRoll <= range.max
    ensures range.max < range.min ==> countRoll == range.min
  {
  }

  class LootContainer {
    var numberOfItemsToDropRange: StatRange<int>
    var numberOfItemsToDrop: int
    var hasBeenUsed: bool
    var containerRarity: ItemRarity
    var generatedLootItemsToDrop: seq<ItemTemplate>

    constructor (range: StatRange<int>)
      ensures numberOfItemsToDropRange == range && numberOfItemsToDrop == 0
      ensures !hasBeenUsed && containerRarity == Common && generatedLootItemsToDrop == []
    {
      numberOfItemsToDropRange := range;
      numberOfItemsToDrop := 0;
      hasBeenUsed := false;
      containerRarity := Common;
      generatedLootItemsToDrop := [];
    }

    /** Start: rolls the item count, then the container rarity, then
        generates the loot list; an exception in the rarity step ends Start
        before any loot is generated. */
    method Start(countRoll: int, raritySettings: seq<ItemRaritySettings>, randomWeight: int,
                 database: ItemDatabase, templateRolls: seq<int>) returns (outcome: Outcome)
      requires RangeRoll(countRoll, numberOfItemsToDropRange.min, numberOfItemsToDropRange.max + 1)
      requires RangeRoll(randomWeight, 0, 100)
      requires |templateRolls| >= countRoll + 1
      requires forall i :: 0 <= i < |templateRolls| ==> RangeRoll(templateRolls[i], 0, |database.itemTemplates|)
      modifies this
      ensures numberOfItemsToDrop == countRoll && hasBeenUsed == old(hasBeenUsed)
      ensures numberOfItemsToDropRange == old(numberOfItemsToDropRange)
      ensures containerRarity ==
                RarityCascade(raritySettings, randomWeight, old(containerRarity),
                              if |raritySettings| < 5 then |raritySettings| else 5)
      ensures |raritySettings| < 5 ==>
                outcome == Threw(ArgumentOutOfRange) && generatedLootItemsToDrop == old(generatedLootItemsToDrop)
      ensures |raritySettings| >= 5 && (countRoll < 0 || |database.itemTemplates| > 0) ==>
                outcome == Completed &&
                generatedLootItemsToDrop ==
                  old(generatedLootItemsToDrop) +
                  (if countRoll < 0 then [] else Draws(database.itemTemplates, templateRolls, countRoll + 1))
      ensures |raritySettings| >= 5 && countRoll >= 0 && |database.itemTemplates| == 0 ==>
                outcome == Threw(ArgumentOutOfRange) && generatedLootItemsToDrop == old(generatedLootItemsToDrop)
    {
      RollNumberOfItemsToDrop(countRoll);
      outcome := RandomlyAssignContainerRarity(raritySettings, randomWeight);
      if outcome.Threw? {
        return;
      }
      outcome := GenerateLootItemsToDrop(database, templateRolls);
      if countRoll < 0 {
        assert generatedLootItemsToDrop == old(generatedLootItemsToDrop) + [];
      }
    }

    /** The item-count roll of Start: Random.Range(min, max + 1). */
    method RollNumberOfItemsToDrop(countRoll: int)
      requires RangeRoll(countRoll, numberOfItemsToDropRange.min, numberOfItemsToDropRange.max + 1)
      modifies this
      ensures numberOfItemsToDrop == countRoll
      ensures numberOfItemsToDropRange.min <= numberOfItemsToDropRange.max ==>
                numberOfItemsToDropRange.min <= numberOfItemsToDrop <= numberOfItemsToDropRange.max
      ensures numberOfItemsToDropRange == old(numberOfItemsToDropRange) && hasBeenUsed == old(hasBeenUsed)
      ensures containerRarity == old(containerRarity) && generatedLootItemsToDrop == old(generatedLootItemsToDrop)
    {
      ItemCountInclusive(countRoll, numberOfItemsToDropRange);
      numberOfItemsToDrop := countRoll;
    }

    /** RandomlyAssignContainerRarity: the same overwriting cascade as item
        rarity, over the first five rarity settings; indexing a settings
        list shorter than five throws after the steps that fit. */
    method RandomlyAssignContainerRarity(raritySettings: seq<ItemRaritySettings>, randomWeight: int)
      returns (outcome: Outcome)
      requires RangeRoll(randomWeight, 0, 100)
      modifies this
      ensures |raritySettings| >= 5 ==>
                outcome == Completed &&
                containerRarity == RarityCascade(raritySettings, randomWeight, old(containerRarity), 5)
      ensures |raritySettings| < 5 ==>
                outcome == Threw(ArgumentOutOfRange) &&
                containerRarity == RarityCascade(raritySettings, randomWeight, old(containerRarity), |raritySettings|)
      ensures numberOfItemsToDropRange == old(numberOfItemsToDropRange) && numberOfItemsToDrop == old(numberOfItemsToDrop)
      ensures hasBeenUsed == old(hasBeenUsed) && generatedLootItemsToDrop == old(generatedLootItemsToDrop)
    {
      ghost var previous := containerRarity;
      if |raritySettings| < 1 { return Threw(ArgumentOutOfRange); }
      if MeetsThreshold(randomWeight, raritySettings[0].rarityDropChance) {
        containerRarity := Common;
      }
      assert containerRarity == RarityCascade(raritySettings, randomWeight, previous, 1);
      if |raritySettings| < 2 { return Threw(ArgumentOutOfRange); }
      if MeetsThreshold(randomWeight, raritySettings[1].rarityDropChance) {
        containerRarity := Uncommon;
      }
      assert containerRarity == RarityCascade(raritySettings, randomWeight, previous, 2);
      if |raritySettings| < 3 { return Threw(ArgumentOutOfRange); }
      if MeetsThreshold(randomWeight, raritySettings[2].rarityDropChance) {
        containerRarity := Rare;
      }
      assert containerRarity == RarityCascade(raritySettings, randomWeight, previous, 3);
      if |raritySettings| < 4 { return Threw(ArgumentOutOfRange); }
      if MeetsThreshold(randomWeight, raritySettings[3].rarityDropChance) {
        containerRarity := Epic;
      }
      assert containerRarity == RarityCascade(raritySettings, randomWeight, previous, 4);
      if |raritySettings| < 5 { return Threw(ArgumentOutOfRange); }
      if MeetsThreshold(randomWeight, raritySettings[4].rarityDropChance) {
        containerRarity := Unique;
      }
      assert containerRarity == RarityCascade(raritySettings, randomWeight, previous, 5);
      outcome := Completed;
    }

    /** GenerateLootItemsToDrop: the loop runs for i = 0 .. n inclusive, so
        n + 1 templates are appended (none when n < 0), each the database
        template at its roll. On an empty database the first draw throws
        and nothing is appended. */
    method GenerateLootItemsToDrop(database: ItemDatabase, templateRolls: seq<int>) returns (outcome: Outcome)
      requires |templateRolls| >= numberOfItemsToDrop + 1
      requires forall i :: 0 <= i < |templateRolls| ==> RangeRoll(templateRolls[i], 0, |database.itemTemplates|)
      modifies this
      ensures numberOfItemsToDropRange == old(numberOfItemsToDropRange) && numberOfItemsToDrop == old(numberOfItemsToDrop)
      ensures hasBeenUsed == old(hasBeenUsed) && containerRarity == old(containerRarity)
      ensures numberOfItemsToDrop < 0 ==> outcome == Completed && generatedLootItemsToDrop == old(generatedLootItemsToDrop)
      ensures numberOfItemsToDrop >= 0 && |database.itemTemplates| == 0 ==>
                outcome == Threw(ArgumentOutOfRange) && generatedLootItemsToDrop == old(generatedLootItemsToDrop)
      ensures numberOfItemsToDrop >= 0 && |database.itemTemplates| > 0 ==>
                outcome == Completed &&
                generatedLootItemsToDrop ==
                  old(generatedLootItemsToDrop) + Draws(database.itemTemplates, templateRolls, numberOfItemsToDrop + 1)
    {
      outcome := Completed;
      var i := 0;
      while i <= numberOfItemsToDrop
        invariant 0 <= i <= |templateRolls|
        invariant i <= if numberOfItemsToDrop >= 0 then numberOfItemsToDrop + 1 else 0
        invariant |database.itemTemplates| == 0 ==> i == 0
        invariant |database.itemTemplates| > 0 ==>
                    generatedLootItemsToDrop == old(generatedLootItemsToDrop) + Draws(database.itemTemplates, templateRolls, i)
        invariant |database.itemTemplates| == 0 ==> generatedLootItemsToDrop == old(generatedLootItemsToDrop)
        invariant numberOfItemsToDropRange == old(numberOfItemsToDropRange) && numberOfItemsToDrop == old(numberOfItemsToDrop)
        invariant hasBeenUsed == old(hasBeenUsed) && containerRarity == old(containerRarity)
      {
        var drawn := database.GetRandomItemTemplate(templateRolls[i]);
        if drawn.Err? {
          return Threw(drawn.exception);
        }
        generatedLootItemsToDrop := generatedLootItemsToDrop + [drawn.value];
        i := i + 1;
      }
    }

    /** DropLootAroundContainer: the first call spawns one pickup per
        generated template, in order, each with the container's rarity,
        and marks the container used; every later call spawns nothing. */
    method DropLootAroundContainer() returns (pickups: seq<Pickup>)
      modifies this
      ensures old(hasBeenUsed) ==> pickups == []
      ensures !old(hasBeenUsed) ==> pickups == Pickups(generatedLootItemsToDrop, containerRarity)
      ensures hasBeenUsed
      ensures numberOfItemsToDropRange == old(numberOfItemsToDropRange) && numberOfItemsToDrop == old(numberOfItemsToDrop)
      ensures containerRarity == old(containerRarity) && generatedLootItemsToDrop == old(generatedLootItemsToDrop)
    {
      if hasBeenUsed {
        return [];
      }
      pickups := [];
      var i := 0;
      while i < |generatedLootItemsToDrop|
        invariant 0 <= i <= |generatedLootItemsToDrop|
        invariant pickups == Pickups(generatedLootItemsToDrop[..i], containerRarity)
      {
        pickups := pickups + [Pickup(generatedLootItemsToDrop[i], containerRarity)];
        assert generatedLootItemsToDrop[..i + 1][..i] == generatedLootItemsToDrop[..i];
        i := i + 1;
      }
      assert generatedLootItemsToDrop[..i] == generatedLootItemsToDrop;
      hasBeenUsed := true;
    }
  }
}
