/** ItemDatabase: the list of item templates the game draws from. It filters
    the templates by item type, finds a template by name, and picks one at a
    random index. None of these lookups changes the list. */
module Database {
  import opened RpgTypes

  /** `itemTemplate as WeaponTemplate` / `as ArmourTemplate`: the template
      itself when its class matches, null otherwise. */
  function Cast(t: ItemTemplate, itemType: ItemType): Option<ItemTemplate> {
    match itemType
    case Weapon => if t.definition.WeaponTemplate? then Some(t) else None
    case Armour => if t.definition.ArmourTemplate? then Some(t) else None
    case _ => None
  }

  /** The list GetAll*Templates builds: one cast entry per template of the
      given item type, in list order. */
  function TemplatesOfType(templates: seq<ItemTemplate>, itemType: ItemType): seq<Option<ItemTemplate>> {
    if |templates| == 0 then []
    else
      var n := |templates| - 1;
      TemplatesOfType(templates[..n], itemType) +
        (if templates[n].itemType == itemType then [Cast(templates[n], itemType)] else [])
  }

  /** How many templates have the given item type. */
  function CountOfType(templates: seq<ItemTemplate>, itemType: ItemType): nat {
    if |templates| == 0 then 0
    else
      var n := |templates| - 1;
      CountOfType(templates[..n], itemType) + (if templates[n].itemType == itemType then 1 else 0)
  }

  /** The filter keeps exactly one entry per template of the type; every
      non-null entry is a template of the list with that type; and every
      template of the type whose class matches appears. */
  lemma {:induction false} TemplatesOfTypeFacts(templates: seq<ItemTemplate>, itemType: ItemType)
    ensures |TemplatesOfType(templates, itemType)| == CountOfType(templates, itemType)
    ensures forall e :: e in TemplatesOfType(templates, itemType) && e.Some? ==>
              e.value in templates && e.value.itemType == itemType
    ensures forall t :: t in templates && t.itemType == itemType ==> Cast(t, itemType) in TemplatesOfType(templates, itemType)
  {
    if |templates| > 0 {
      var n := |templates| - 1;
      TemplatesOfTypeFacts(templates[..n], itemType);
      assert templates == templates[..n] + [templates[n]];
    }
  }

  /** Filtering distributes over concatenation, so the filter keeps the
      templates in their original relative order. */
  lemma {:induction false} TemplatesOfTypeAppend(a: seq<ItemTemplate>, b: seq<ItemTemplate>, itemType: ItemType)
    ensures TemplatesOfType(a + b, itemType) == TemplatesOfType(a, itemType) + TemplatesOfType(b, itemType)
    decreases |b|
  {
    if |b| == 0 {
      assert a + b == a;
    } else {
      var n := |b| - 1;
      assert (a + b)[..|a + b| - 1] == a + b[..n];
      TemplatesOfTypeAppend(a, b[..n], itemType);
    }
  }

  /** List.Find over the names: the first template whose name equals
      `itemName` exactly, or null when there is none. */
  function FindByName(templates: seq<ItemTemplate>, itemName: string): (r: Option<ItemTemplate>)
    ensures r.Some? ==> exists i :: 0 <= i < |templates| && templates[i] == r.value &&
                          r.value.itemName == itemName &&
                          forall j :: 0 <= j < i ==> templates[j].itemName != itemName
    ensures r.None? <==> forall i :: 0 <= i < |templates| ==> templates[i].itemName != itemName
  {
    if |templates| == 0 then None
    else if templates[0].itemName == itemName then Some(templates[0])
    else
      var rest := FindByName(templates[1..], itemName);
      assert forall i :: 1 <= i < |templates| ==> templates[i] == templates[1..][i - 1];
      rest
  }

  class ItemDatabase {
    var itemTemplates: seq<ItemTemplate>

    constructor (templates: seq<ItemTemplate>)
      ensures itemTemplates == templates
    {
      itemTemplates := templates;
    }

    /** GetAllWeaponTemplates: one entry per Weapon-typed template, in list
        order; a Weapon-typed template that is not a WeaponTemplate gives a
        null entry. */
    method GetAllWeaponTemplates() returns (weaponTemplates: seq<Option<ItemTemplate>>)
      ensures weaponTemplates == TemplatesOfType(itemTemplates, Weapon)
      ensures |weaponTemplates| == CountOfType(itemTemplates, Weapon)
    {
      weaponTemplates := CollectOfType(Weapon);
    }

    /** GetAllArmourTemplates: the same filter for Armour-typed templates. */
    method GetAllArmourTemplates() returns (armourTemplates: seq<Option<ItemTemplate>>)
      ensures armourTemplates == TemplatesOfType(itemTemplates, Armour)
      ensures |armourTemplates| == CountOfType(itemTemplates, Armour)
    {
      armourTemplates := CollectOfType(Armour);
    }

    /** The `foreach` both GetAll methods run: every template of the type
        is cast and appended. */
    method CollectOfType(itemType: ItemType) returns (found: seq<Option<ItemTemplate>>)
      ensures found == TemplatesOfType(itemTemplates, itemType)
      ensures |found| == CountOfType(itemTemplates, itemType)
    {
      found := [];
      var i := 0;
      while i < |itemTemplates|
        invariant 0 <= i <= |itemTemplates|
        invariant found == TemplatesOfType(itemTemplates[..i], itemType)
      {
        if itemTemplates[i].itemType == itemType {
          found := found + [Cast(itemTemplates[i], itemType)];
        }
        assert itemTemplates[..i + 1][..i] == itemTemplates[..i];
        i := i + 1;
      }
      assert itemTemplates[..i] == itemTemplates;
      TemplatesOfTypeFacts(itemTemplates, itemType);
    }

    /** GetTemplateByName: the first template with exactly that name, or
        null. */
    function GetTemplateByName(itemName: string): (r: Option<ItemTemplate>)
      reads this
      ensures r.Some? ==> r.value in itemTemplates && r.value.itemName == itemName
      ensures r.None? <==> forall t :: t in itemTemplates ==> t.itemName != itemName
    {
      FindByName(itemTemplates, itemName)
    }

    /** GetRandomItemTemplate: the template at index `roll`, drawn from
        [0, Count). On an empty list the roll is 0 and indexing throws. */
    function GetRandomItemTemplate(roll: int): (r: Result<ItemTemplate>)
      requires RangeRoll(roll, 0, |itemTemplates|)
      reads this
      ensures r.Ok? <==> |itemTemplates| > 0
      ensures r.Ok? ==> r.value in itemTemplates
      ensures r.Err? ==> r.exception == ArgumentOutOfRange
    {
      if |itemTemplates| == 0 then Err(ArgumentOutOfRange) else Ok(itemTemplates[roll])
    }
  }
}
