/** The printer of search results. */
module DexFormatters {
  import opened Datasets
  import opened Numerals

  /** The ids under which the database knows armors, jewels and skills. */
  datatype ExternalIds = ExternalIds(armors: map<int, int>, jewels: map<int, int>, skills: map<int, int>)
  {
    function Armor(id: int): int { if id in armors then armors[id] else 0 }
    function Jewel(id: int): int { if id in jewels then jewels[id] else 0 }
    function Skill(id: int): int { if id in skills then skills[id] else 0 }

    function Jewels(ids: seq<int>): seq<int> {
      seq(|ids|, n requires 0 <= n < |ids| => Jewel(ids[n]))
    }
  }

  // ---------- What is written ----------

  /** Every number followed by a space. */
  function Spaced(ns: seq<int>): string {
    if ns == [] then "" else NumberText(ns[0]) + " " + Spaced(ns[1..])
  }

  function VectorText(ns: seq<int>): string { "(" + Spaced(ns) + ")" }

  /** A space before every number. */
  function Preceded(ns: seq<int>): string {
    if ns == [] then "" else " " + NumberText(ns[0]) + Preceded(ns[1..])
  }

  function ListText(ns: seq<int>): string {
    if ns == [] then "()" else "(" + NumberText(ns[0]) + Preceded(ns[1..]) + ")"
  }

  function EffectNumbers(effects: seq<Effect>, external: ExternalIds): seq<int> {
    if effects == [] then [] else [external.Skill(effects[0].id), effects[0].points] + EffectNumbers(effects[1..], external)
  }

  function Label(part: int): string {
    if part == HEAD then "HEAD"
    else if part == 1 then "ARMS"
    else if part == 2 then "WAIST"
    else if part == 3 then "LEGS"
    else if part == GEAR then "GEAR"
    else if part == AMULET then "AMULET"
    else "BODY"
  }

  /** What stands before the jewels of a part. */
  function HeadText(data: Data, external: ExternalIds, id: int): string
    requires data.IsArmor(id)
  {
    var armor := data.armors[id];
    if armor.part == AMULET then VectorText(EffectNumbers(armor.effects, external))
    else NumberText(if armor.part == GEAR then armor.slots else external.Armor(id))
  }

  function PartText(data: Data, external: ExternalIds, id: int, jewels: seq<int>): string
    requires data.IsArmor(id)
  {
    ":" + Label(data.armors[id].part) + " (" + HeadText(data, external, id) + " " + ListText(external.Jewels(jewels)) + ")"
  }

  function PartsText(data: Data, external: ExternalIds, armors: ArmorSet, from: nat): string
    requires armors.Valid(data) && from <= PART_NUM
    decreases PART_NUM - from
  {
    if from == PART_NUM then ""
    else PartText(data, external, armors.ids[from], armors.jewels[from]) + PartsText(data, external, armors, from + 1)
  }

  function SetText(data: Data, external: ExternalIds, armors: ArmorSet): string
    requires armors.Valid(data)
  {
    "(" + PartsText(data, external, armors, 0) + ")\n"
  }

  /** How a helmet with two jewels looks; the other parts differ in their labels and in what stands before the jewels. */
  lemma HelmetTextIs(data: Data, external: ExternalIds, id: int, a: int, b: int)
    requires data.IsArmor(id) && data.armors[id].part == 0 && id in external.armors && a in external.jewels && b in external.jewels
    ensures PartText(data, external, id, [a, b])
         == ":HEAD (" + NumberText(external.armors[id]) + " (" + NumberText(external.jewels[a]) + " "
            + NumberText(external.jewels[b]) + "))"
  {
    hide NumberText, VectorText, EffectNumbers, Label, HeadText, ListText;
    LabelIs();
    HeadTextIs(data, external, id);
    TwoListed(external, a, b);
    assert PartText(data, external, id, [a, b]) == ":" + Label(data.armors[id].part) + " (" + HeadText(data, external, id) + " "
      + ListText(external.Jewels([a, b])) + ")";
  }

  lemma LabelIs()
    ensures Label(0) == "HEAD" && Label(1) == "ARMS" && Label(2) == "WAIST" && Label(3) == "LEGS" && Label(4) == "GEAR"
    ensures Label(5) == "AMULET" && Label(6) == "BODY"
  {
  }

  lemma HeadTextIs(data: Data, external: ExternalIds, id: int)
    requires data.IsArmor(id) && 0 <= data.armors[id].part < 7
    ensures var armor := data.armors[id];
      && (armor.part == 4 ==> HeadText(data, external, id) == NumberText(armor.slots))
      && (armor.part == 5 ==> HeadText(data, external, id) == VectorText(EffectNumbers(armor.effects, external)))
      && (armor.part != 4 && armor.part != 5 && id in external.armors ==>
            HeadText(data, external, id) == NumberText(external.armors[id]))
  {
    hide NumberText, VectorText, EffectNumbers;
  }

  lemma TwoListed(external: ExternalIds, a: int, b: int)
    requires a in external.jewels && b in external.jewels
    ensures ListText(external.Jewels([a, b])) == "(" + NumberText(external.jewels[a]) + " " + NumberText(external.jewels[b]) + ")"
  {
    hide NumberText;
    var ns := external.Jewels([a, b]);
    assert ns == [external.jewels[a], external.jewels[b]] && ns[1..] == [external.jewels[b]] && ns[1..][1..] == [];
    assert Preceded(ns[1..]) == " " + NumberText(external.jewels[b]) + Preceded([]);
  }

  /** How the effects of an amulet look. */
  lemma EffectsTextIs(external: ExternalIds, effect: Effect, effects: seq<Effect>)
    requires effect.id in external.skills
    ensures VectorText(EffectNumbers([], external)) == "()" && ListText([]) == "()"
    ensures Spaced(EffectNumbers([effect] + effects, external))
         == NumberText(external.skills[effect.id]) + " " + NumberText(effect.points) + " " + Spaced(EffectNumbers(effects, external))
  {
    hide NumberText;
    assert ([effect] + effects)[1..] == effects;
    var ns, rest := EffectNumbers([effect] + effects, external), EffectNumbers(effects, external);
    assert ns == [external.skills[effect.id], effect.points] + rest && ns[1..] == [effect.points] + rest && ns[1..][1..] == rest;
    assert Spaced(ns[1..]) == NumberText(effect.points) + " " + Spaced(rest);
  }

  predicate AllValid(data: Data, sets: seq<ArmorSet>) {
    forall n :: 0 <= n < |sets| ==> sets[n].Valid(data)
  }

  function BatchText(data: Data, external: ExternalIds, sets: seq<ArmorSet>): string
    requires AllValid(data, sets)
  {
    if sets == [] then "" else SetText(data, external, sets[0]) + BatchText(data, external, sets[1..])
  }

  // ---------- The loops that write it ----------

  lemma {:induction false} SpacedAppend(ns: seq<int>, n: int)
    ensures Spaced(ns + [n]) == Spaced(ns) + NumberText(n) + " "
  {
    hide NumberText;
    if ns == [] {
      assert (ns + [n])[1..] == [];
    } else {
      assert (ns + [n])[1..] == ns[1..] + [n];
      SpacedAppend(ns[1..], n);
    }
  }

  lemma {:induction false} PrecededAppend(ns: seq<int>, n: int)
    ensures Preceded(ns + [n]) == Preceded(ns) + " " + NumberText(n)
  {
    hide NumberText;
    if ns == [] {
      assert (ns + [n])[1..] == [];
    } else {
      assert (ns + [n])[1..] == ns[1..] + [n];
      PrecededAppend(ns[1..], n);
    }
  }

  method WriteVector(input: seq<int>, out: string) returns (text: string)
    ensures text == out + VectorText(input)
  {
    hide NumberText;
    text := out + "(";
    for n := 0 to |input|
      invariant text == out + "(" + Spaced(input[..n])
    {
      assert input[..n + 1] == input[..n] + [input[n]];
      SpacedAppend(input[..n], input[n]);
      text := text + NumberText(input[n]);
      text := text + " ";
    }
    assert input[..|input|] == input;
    text := text + ")";
  }

  lemma {:induction false} EffectNumbersAppend(effects: seq<Effect>, effect: Effect, external: ExternalIds)
    ensures EffectNumbers(effects + [effect], external)
         == EffectNumbers(effects, external) + [external.Skill(effect.id), effect.points]
  {
    if effects == [] {
      assert (effects + [effect])[1..] == [];
    } else {
      assert (effects + [effect])[1..] == effects[1..] + [effect];
      EffectNumbersAppend(effects[1..], effect, external);
    }
  }

  method WriteEffects(effects: seq<Effect>, external: ExternalIds, out: string) returns (text: string)
    ensures text == out + VectorText(EffectNumbers(effects, external))
  {
    var effectBuffer := [];
    for e := 0 to |effects|
      invariant effectBuffer == EffectNumbers(effects[..e], external)
    {
      assert effects[..e + 1] == effects[..e] + [effects[e]];
      EffectNumbersAppend(effects[..e], effects[e], external);
      effectBuffer := effectBuffer + [external.Skill(effects[e].id)];
      effectBuffer := effectBuffer + [effects[e].points];
    }
    assert effects[..|effects|] == effects;
    text := WriteVector(effectBuffer, out);
  }

  /** The first `n` numbers, with spaces between them. */
  function FirstNumbers(ns: seq<int>, n: nat): string
    requires n <= |ns|
  {
    if n == 0 then "" else NumberText(ns[0]) + Preceded(ns[1..n])
  }

  lemma ListedMore(ns: seq<int>, n: nat)
    requires n < |ns|
    ensures FirstNumbers(ns, n + 1) == FirstNumbers(ns, n) + (if n == 0 then "" else " ") + NumberText(ns[n])
  {
    hide NumberText;
    if n > 0 {
      assert ns[1..n + 1] == ns[1..n] + [ns[n]];
      PrecededAppend(ns[1..n], ns[n]);
    }
  }

  lemma NoneWritten(ns: seq<int>)
    ensures FirstNumbers(ns, 0) == ""
  {
  }

  lemma ListedAll(ns: seq<int>)
    ensures ListText(ns) == "(" + FirstNumbers(ns, |ns|) + ")"
  {
    hide NumberText;
    if ns != [] {
      assert ns[1..|ns|] == ns[1..];
    }
  }

  method WriteJewels(jewels: seq<int>, external: ExternalIds, out: string) returns (text: string)
    ensures text == out + ListText(external.Jewels(jewels))
  {
    hide NumberText, FirstNumbers, ListText;
    assert FirstNumbers(external.Jewels(jewels), 0) == "" by { NoneWritten(external.Jewels(jewels)); }
    ghost var ns := external.Jewels(jewels);
    text := out + "(";
    var first := true;
    for n := 0 to |jewels|
      invariant first == (n == 0)
      invariant text == out + "(" + FirstNumbers(ns, n)
    {
      ListedMore(ns, n);
      if !first {
        text := text + " ";
      } else {
        first := false;
      }
      text := text + NumberText(external.Jewel(jewels[n]));
    }
    ListedAll(ns);
    text := text + ")";
  }

  method WriteArmor(data: Data, external: ExternalIds, id: int, jewels: seq<int>, out: string) returns (text: string)
    requires data.IsArmor(id)
    ensures text == out + PartText(data, external, id, jewels)
  {
    hide Label, HeadText, ListText;
    text := out + ":" + Label(data.armors[id].part) + " (";
    text := WriteHead(data, external, id, text);
    text := text + " ";
    text := WriteJewels(jewels, external, text);
    text := text + ")";
    assert text == out + (":" + Label(data.armors[id].part) + " (" + HeadText(data, external, id) + " "
                          + ListText(external.Jewels(jewels)) + ")");
  }

  method WriteHead(data: Data, external: ExternalIds, id: int, out: string) returns (text: string)
    requires data.IsArmor(id)
    ensures text == out + HeadText(data, external, id)
  {
    hide NumberText, VectorText, EffectNumbers;
    var armor := data.armors[id];
    if GEAR == armor.part {
      text := out + NumberText(armor.slots);
    } else if AMULET == armor.part {
      text := WriteEffects(armor.effects, external, out);
    } else {
      text := out + NumberText(external.Armor(id));
    }
  }

  method Format(data: Data, external: ExternalIds, armors: ArmorSet, out: string) returns (text: string)
    requires armors.Valid(data)
    ensures text == out + SetText(data, external, armors)
  {
    hide PartText;
    text := out + "(";
    for part := 0 to PART_NUM
      invariant text + PartsText(data, external, armors, part) == out + "(" + PartsText(data, external, armors, 0)
    {
      text := WriteArmor(data, external, armors.ids[part], armors.jewels[part], text);
    }
    assert text == out + "(" + PartsText(data, external, armors, 0);
    text := text + ")\n";
  }

  lemma {:induction false} BatchAppend(data: Data, external: ExternalIds, sets: seq<ArmorSet>, armors: ArmorSet)
    requires AllValid(data, sets) && armors.Valid(data)
    ensures AllValid(data, sets + [armors])
    ensures BatchText(data, external, sets + [armors]) == BatchText(data, external, sets) + SetText(data, external, armors)
  {
    hide SetText, ArmorSet.Valid;
    if sets == [] {
      assert (sets + [armors])[1..] == [];
    } else {
      assert (sets + [armors])[1..] == sets[1..] + [armors];
      BatchAppend(data, external, sets[1..], armors);
    }
  }

  /** How many sets are written: all of them, unless a positive limit is given. */
  function Written(sets: nat, maxOutput: int): nat {
    if 0 < maxOutput < sets then maxOutput else sets
  }

  method StringBatchFormat(data: Data, external: ExternalIds, sets: seq<ArmorSet>, maxOutput: int) returns (text: string)
    requires AllValid(data, sets)
    ensures text == BatchText(data, external, sets[..Written(|sets|, maxOutput)])
    ensures maxOutput <= 0 || |sets| <= maxOutput ==> text == BatchText(data, external, sets)
    ensures 0 < maxOutput <= |sets| ==> text == BatchText(data, external, sets[..maxOutput])
  {
    hide SetText;
    text := "";
    var i := 0;
    assert sets[..0] == [] && sets[..|sets|] == sets;
    while i < |sets|
      invariant 0 <= i <= |sets| && text == BatchText(data, external, sets[..i])
      invariant 0 < maxOutput ==> i < maxOutput
    {
      assert sets[..i + 1] == sets[..i] + [sets[i]];
      BatchAppend(data, external, sets[..i], sets[i]);
      text := Format(data, external, sets[i], text);
      if 0 < maxOutput && i + 1 >= maxOutput {
        return;
      }
      i := i + 1;
    }
  }
}
