/** The repository's own judge of search results. */
module Verifiers {
  import opened Datasets
  import opened Stats

  // ---------- The requirements ----------

  ghost predicate MeetsSkills(data: Data, query: Query, armors: ArmorSet)
    requires armors.Valid(data)
  {
    && (forall e :: 0 <= e < |query.effects| ==> SkillReached(data, armors, query.effects[e]))
    && (query.avoidNegative ==> !SomeNegative(data, armors))
  }

  predicate SkillReached(data: Data, armors: ArmorSet, effect: Effect)
    requires armors.Valid(data)
  {
    Occurs(data, armors, PART_NUM, effect.id) && Stat(data, armors, effect.id) >= effect.points
  }

  predicate MeetsDefense(data: Data, query: Query, armors: ArmorSet)
    requires armors.Valid(data)
  {
    Defense(data, armors.ids) >= query.defense
  }

  predicate MeetsWeaponType(data: Data, query: Query, armors: ArmorSet)
    requires armors.Valid(data)
  {
    forall p :: 0 <= p < PART_NUM ==> data.armors[armors.ids[p]].weaponType != 1 - query.armorFilter.weaponType
  }

  predicate MeetsGender(data: Data, query: Query, armors: ArmorSet)
    requires armors.Valid(data)
  {
    forall p :: 0 <= p < PART_NUM ==> data.armors[armors.ids[p]].gender != 1 - query.armorFilter.gender
  }

  predicate IsGearOrAmulet(p: int) { p == GEAR || p == AMULET }

  predicate MeetsRare(data: Data, query: Query, armors: ArmorSet)
    requires armors.Valid(data)
  {
    forall p :: 0 <= p < PART_NUM && !IsGearOrAmulet(p) ==>
      query.armorFilter.minRare <= data.armors[armors.ids[p]].rare <= query.armorFilter.maxRare
  }

  predicate MeetsArmorLists(data: Data, query: Query, armors: ArmorSet)
    requires armors.Valid(data)
  {
    forall p :: 0 <= p < PART_NUM && !IsGearOrAmulet(p) ==>
      && armors.ids[p] !in query.armorFilter.blacklist
      && (query.armorFilter.whitelist != {} ==> armors.ids[p] in query.armorFilter.whitelist)
  }

  predicate MeetsJewelList(data: Data, query: Query, armors: ArmorSet)
    requires armors.Valid(data)
  {
    forall p, n :: 0 <= p < PART_NUM && 0 <= n < |armors.jewels[p]| ==> armors.jewels[p][n] !in query.jewelFilter.blacklist
  }

  ghost predicate Passes(data: Data, query: Query, armors: ArmorSet)
    requires armors.Valid(data)
  {
    && MeetsWeaponType(data, query, armors) && MeetsGender(data, query, armors)
    && MeetsArmorLists(data, query, armors) && MeetsJewelList(data, query, armors)
    && MeetsRare(data, query, armors) && MeetsDefense(data, query, armors)
    && MeetsSkills(data, query, armors)
  }

  // ---------- The checks ----------

  datatype Check = SkillTag | DefenseTag | WeaponTypeTag | GenderTag | RareTag | ArmorListTag | JewelListTag

  /** What comes after the first messages is all of one kind. */
  predicate OnlyAdds(messages: seq<Check>, more: seq<Check>, kind: Check) {
    forall n :: |messages| <= n < |more| ==> more[n] == kind
  }

  method VerifySkillRequirement(data: Data, query: Query, armors: ArmorSet, messages: seq<Check>)
    returns (pass: bool, more: seq<Check>)
    requires armors.Valid(data)
    ensures pass <==> MeetsSkills(data, query, armors)
    ensures messages <= more && (pass <==> more == messages)
    ensures OnlyAdds(messages, more, SkillTag)
  {
    hide Stat, Occurs, SomeNegative;
    var stats := GetSkillStats(data, armors);
    pass, more := true, messages;
    for e := 0 to |query.effects|
      invariant pass <==> forall i :: 0 <= i < e ==> SkillReached(data, armors, query.effects[i])
      invariant messages <= more && (pass <==> more == messages) && OnlyAdds(messages, more, SkillTag)
    {
      var effect := query.effects[e];
      assert At(stats, effect.id) == Stat(data, armors, effect.id);
      if effect.id in stats {
        if stats[effect.id] < effect.points {
          more := more + [SkillTag];
          pass := false;
        }
      } else {
        more := more + [SkillTag];
        pass := false;
      }
    }
    if query.avoidNegative {
      var negative := AnyNegative(data, armors);
      if negative {
        more := more + [SkillTag];
        pass := false;
      }
    }
  }

  method VerifyDefenseRequirement(data: Data, query: Query, armors: ArmorSet, messages: seq<Check>)
    returns (pass: bool, more: seq<Check>)
    requires armors.Valid(data)
    ensures pass <==> MeetsDefense(data, query, armors)
    ensures messages <= more && (pass <==> more == messages)
    ensures OnlyAdds(messages, more, DefenseTag)
  {
    var defense := GetTotalDefense(data, armors);
    pass, more := true, messages;
    if defense < query.defense {
      return false, messages + [DefenseTag];
    }
  }

  method VerifyWeaponTypeRequirement(data: Data, query: Query, armors: ArmorSet, messages: seq<Check>)
    returns (pass: bool, more: seq<Check>)
    requires armors.Valid(data)
    ensures pass <==> MeetsWeaponType(data, query, armors)
    ensures messages <= more && (pass <==> more == messages)
    ensures OnlyAdds(messages, more, WeaponTypeTag)
  {
    pass, more := true, messages;
    for i := 0 to PART_NUM
      invariant pass <==> forall p :: 0 <= p < i ==> data.armors[armors.ids[p]].weaponType != 1 - query.armorFilter.weaponType
      invariant messages <= more && (pass <==> more == messages) && OnlyAdds(messages, more, WeaponTypeTag)
    {
      if data.armors[armors.ids[i]].weaponType == 1 - query.armorFilter.weaponType {
        more := more + [WeaponTypeTag];
        pass := false;
      }
    }
  }

  method VerifyGenderRequirement(data: Data, query: Query, armors: ArmorSet, messages: seq<Check>)
    returns (pass: bool, more: seq<Check>)
    requires armors.Valid(data)
    ensures pass <==> MeetsGender(data, query, armors)
    ensures messages <= more && (pass <==> more == messages)
    ensures OnlyAdds(messages, more, GenderTag)
  {
    pass, more := true, messages;
    for i := 0 to PART_NUM
      invariant pass <==> forall p :: 0 <= p < i ==> data.armors[armors.ids[p]].gender != 1 - query.armorFilter.gender
      invariant messages <= more && (pass <==> more == messages) && OnlyAdds(messages, more, GenderTag)
    {
      if data.armors[armors.ids[i]].gender == 1 - query.armorFilter.gender {
        more := more + [GenderTag];
        pass := false;
      }
    }
  }

  method VerifyRareRequirement(data: Data, query: Query, armors: ArmorSet, messages: seq<Check>)
    returns (pass: bool, more: seq<Check>)
    requires armors.Valid(data)
    ensures pass <==> MeetsRare(data, query, armors)
    ensures messages <= more && (pass <==> more == messages)
    ensures OnlyAdds(messages, more, RareTag)
  {
    pass, more := true, messages;
    for i := 0 to PART_NUM
      invariant pass <==> forall p :: 0 <= p < i && !IsGearOrAmulet(p) ==>
        query.armorFilter.minRare <= data.armors[armors.ids[p]].rare <= query.armorFilter.maxRare
      invariant messages <= more && (pass <==> more == messages) && OnlyAdds(messages, more, RareTag)
    {
      if !IsGearOrAmulet(i) {
        var armor := data.armors[armors.ids[i]];
        if armor.rare < query.armorFilter.minRare || armor.rare > query.armorFilter.maxRare {
          more := more + [RareTag];
          pass := false;
        }
      }
    }
  }

  method VerifyArmorBlacklist(data: Data, query: Query, armors: ArmorSet, messages: seq<Check>)
    returns (pass: bool, more: seq<Check>)
    requires armors.Valid(data)
    ensures pass <==> MeetsArmorLists(data, query, armors)
    ensures messages <= more && (pass <==> more == messages)
    ensures OnlyAdds(messages, more, ArmorListTag)
  {
    pass, more := true, messages;
    var filter := query.armorFilter;
    for i := 0 to PART_NUM
      invariant pass <==> forall p :: 0 <= p < i && !IsGearOrAmulet(p) ==>
        armors.ids[p] !in filter.blacklist && (filter.whitelist != {} ==> armors.ids[p] in filter.whitelist)
      invariant messages <= more && (pass <==> more == messages) && OnlyAdds(messages, more, ArmorListTag)
    {
      if !IsGearOrAmulet(i) {
        var id := armors.ids[i];
        if id in filter.blacklist || (0 < |filter.whitelist| && id !in filter.whitelist) {
          more := more + [ArmorListTag];
          pass := false;
        }
      }
    }
  }

  method VerifyJewelBlacklist(data: Data, query: Query, armors: ArmorSet, messages: seq<Check>)
    returns (pass: bool, more: seq<Check>)
    requires armors.Valid(data)
    ensures pass <==> MeetsJewelList(data, query, armors)
    ensures messages <= more && (pass <==> more == messages)
    ensures OnlyAdds(messages, more, JewelListTag)
  {
    pass, more := true, messages;
    for i := 0 to PART_NUM
      invariant pass <==> forall p, n :: 0 <= p < i && 0 <= n < |armors.jewels[p]| ==>
        armors.jewels[p][n] !in query.jewelFilter.blacklist
      invariant messages <= more && (pass <==> more == messages) && OnlyAdds(messages, more, JewelListTag)
    {
      for j := 0 to |armors.jewels[i]|
        invariant pass <==>
          && (forall p, n :: 0 <= p < i && 0 <= n < |armors.jewels[p]| ==>
                armors.jewels[p][n] !in query.jewelFilter.blacklist)
          && (forall n :: 0 <= n < j ==> armors.jewels[i][n] !in query.jewelFilter.blacklist)
        invariant messages <= more && (pass <==> more == messages) && OnlyAdds(messages, more, JewelListTag)
      {
        if armors.jewels[i][j] in query.jewelFilter.blacklist {
          more := more + [JewelListTag];
          pass := false;
        }
      }
    }
  }

  /** There is no message if and only if the set meets every requirement, and each message names a requirement it does not meet. */
  method VerifyArmorSet(data: Data, query: Query, armors: ArmorSet) returns (messages: seq<Check>)
    requires armors.Valid(data)
    ensures messages == [] <==> Passes(data, query, armors)
    ensures WeaponTypeTag in messages <==> !MeetsWeaponType(data, query, armors)
    ensures GenderTag in messages <==> !MeetsGender(data, query, armors)
    ensures ArmorListTag in messages <==> !MeetsArmorLists(data, query, armors)
    ensures JewelListTag in messages <==> !MeetsJewelList(data, query, armors)
    ensures RareTag in messages <==> !MeetsRare(data, query, armors)
    ensures DefenseTag in messages <==> !MeetsDefense(data, query, armors)
    ensures SkillTag in messages <==> !MeetsSkills(data, query, armors)
  {
    hide MeetsSkills, MeetsDefense, MeetsWeaponType, MeetsGender, MeetsRare, MeetsArmorLists, MeetsJewelList, OnlyAdds;
    messages := [];
    var pass1, pass2, pass3, pass4, pass5, pass6, pass7;
    ghost var m0 := messages;
    pass1, messages := VerifyWeaponTypeRequirement(data, query, armors, messages);
    ghost var m1 := messages;
    pass2, messages := VerifyGenderRequirement(data, query, armors, messages);
    ghost var m2 := messages;
    pass3, messages := VerifyArmorBlacklist(data, query, armors, messages);
    ghost var m3 := messages;
    pass4, messages := VerifyJewelBlacklist(data, query, armors, messages);
    ghost var m4 := messages;
    pass5, messages := VerifyRareRequirement(data, query, armors, messages);
    ghost var m5 := messages;
    pass6, messages := VerifyDefenseRequirement(data, query, armors, messages);
    ghost var m6 := messages;
    pass7, messages := VerifySkillRequirement(data, query, armors, messages);
    KindAdded(m0, m1, WeaponTypeTag);
    KindAdded(m1, m2, GenderTag);
    KindAdded(m2, m3, ArmorListTag);
    KindAdded(m3, m4, JewelListTag);
    KindAdded(m4, m5, RareTag);
    KindAdded(m5, m6, DefenseTag);
    KindAdded(m6, messages, SkillTag);
  }

  lemma KindAdded(messages: seq<Check>, more: seq<Check>, kind: Check)
    requires messages <= more && OnlyAdds(messages, more, kind)
    ensures forall c :: c in more <==> c in messages || (c == kind && more != messages)
  {
    forall c
      ensures c in more <==> c in messages || (c == kind && more != messages)
    {
      if c in more && c !in messages {
        var n :| 0 <= n < |more| && more[n] == c;
        assert n >= |messages|;
      }
      if more != messages {
        assert more[|messages|] == kind;
      }
    }
  }

  // ---------- The requirements, from the tables' own fields ----------

  lemma MeetsSkillsIff(data: Data, query: Query, armors: ArmorSet)
    requires armors.Valid(data)
    ensures !MeetsSkills(data, query, armors) <==>
      || (exists e :: 0 <= e < |query.effects| && (!Occurs(data, armors, PART_NUM, query.effects[e].id)
                                                   || Stat(data, armors, query.effects[e].id) < query.effects[e].points))
      || (query.avoidNegative && exists skill, x :: skill in data.skills && x in data.skills[skill] && x < 0
                                                    && Stat(data, armors, skill) <= x)
  {
    hide Occurs, Stat, Activates;
    forall skill
      ensures Activates(data, skill, Stat(data, armors, skill)) <==>
        skill in data.skills && exists x :: x in data.skills[skill] && x < 0 && Stat(data, armors, skill) <= x
    {
      ActivatesIff(data, skill, Stat(data, armors, skill));
    }
    if !MeetsSkills(data, query, armors) {
      if e :| 0 <= e < |query.effects| && !SkillReached(data, armors, query.effects[e]) {
        assert !Occurs(data, armors, PART_NUM, query.effects[e].id)
            || Stat(data, armors, query.effects[e].id) < query.effects[e].points;
      }
    }
    if e :| 0 <= e < |query.effects| && (!Occurs(data, armors, PART_NUM, query.effects[e].id)
                                         || Stat(data, armors, query.effects[e].id) < query.effects[e].points) {
      assert !SkillReached(data, armors, query.effects[e]);
    }
  }

  lemma MeetsPartsIff(data: Data, query: Query, armors: ArmorSet)
    requires armors.Valid(data)
    ensures !MeetsWeaponType(data, query, armors) <==>
      exists p :: 0 <= p < 7 && data.armors[armors.ids[p]].weaponType + query.armorFilter.weaponType == 1
    ensures !MeetsGender(data, query, armors) <==>
      exists p :: 0 <= p < 7 && data.armors[armors.ids[p]].gender + query.armorFilter.gender == 1
    ensures !MeetsArmorLists(data, query, armors) <==>
      exists p :: 0 <= p < 7 && p != 4 && p != 5
        && (armors.ids[p] in query.armorFilter.blacklist
            || (query.armorFilter.whitelist != {} && armors.ids[p] !in query.armorFilter.whitelist))
    ensures !MeetsJewelList(data, query, armors) <==>
      exists p, n :: 0 <= p < 7 && 0 <= n < |armors.jewels[p]| && armors.jewels[p][n] in query.jewelFilter.blacklist
    ensures !MeetsDefense(data, query, armors) <==> Defense(data, armors.ids) < query.defense
    ensures !MeetsRare(data, query, armors) <==>
      exists p :: 0 <= p < 7 && p != 4 && p != 5
        && !(query.armorFilter.minRare <= data.armors[armors.ids[p]].rare <= query.armorFilter.maxRare)
  {
  }
}
