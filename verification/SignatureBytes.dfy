/** The byte loops of a signature, and that they compute the operations on packed values. */
module SignatureBytes {
  import opened Signatures
  import opened Datasets
  import opened Keys

  class SignatureBuffer {
    const bytes: array<int>

    ghost predicate Valid()
      reads bytes
    {
      bytes.Length == BYTES && forall i :: 0 <= i < BYTES ==> -128 <= bytes[i] < 128
    }

    function Value(): Signature
      requires Valid()
      reads bytes
    {
      bytes[..]
    }

    constructor ()
      ensures Valid() && fresh(bytes) && Value() == ZERO
    {
      bytes := new int[BYTES](_ => 0);
      new;
      assert bytes[..] == ZERO;
    }

    /** Signature(armor, effects): the slots of one piece, its torso multiplier, and its points by position of the effect. */
    constructor FromArmor(armor: Armor, effects: seq<Effect>)
      requires |effects| <= EFFECTS
      ensures Valid() && fresh(bytes) && Value() == ArmorSignature(armor, effects)
      ensures |armor.effects| == 1 && armor.effects[0].id == 0 ==> Value() == ZERO[2 := 1]
      ensures !(|armor.effects| == 1 && armor.effects[0].id == 0) ==>
        && Value()[0] == (if armor.slots == 1 then 1 else 0)
        && Value()[1] == (if armor.slots == 2 then 1 else if armor.slots == 3 then 16 else 0)
        && Value()[2] == (if armor.part == 6 then 1 else 0)
        && ShowPoints(Value(), armor.effects, effects)
    {
      bytes := new int[BYTES](_ => 0);
      new;
      if armor.IsTorsoUp() {
        bytes[2] := 1;
        assert bytes[..] == ZERO[2 := 1];
        return;
      } else if BODY == armor.part {
        bytes[2] := 1;
      }
      hide EffectBytes, ShowPoints;
      SetSlots(armor.slots);
      SetEffects(armor.effects, effects);
      assert bytes[..] == bytes[..2] + [bytes[2]] + bytes[EFFECTS_BEGIN..];
      BytesShow(bytes[..], armor.effects, effects);
    }

    /** Signature(jewel, skill_ids, effects, valid): all zero unless the jewel has points in one of the skills. */
    constructor FromJewel(jewel: Jewel, skillIds: seq<int>, effects: seq<Effect>)
      requires |effects| <= EFFECTS
      ensures Valid() && fresh(bytes)
      ensures Value() == if JewelValid(jewel, skillIds) then JewelSignature(jewel, effects) else ZERO
      ensures (forall s, e :: 0 <= s < |skillIds| && 0 <= e < |jewel.effects| && jewel.effects[e].id == skillIds[s] ==>
                 jewel.effects[e].points <= 0) ==> Value() == ZERO
      ensures (exists s, e :: 0 <= s < |skillIds| && 0 <= e < |jewel.effects| && jewel.effects[e].id == skillIds[s]
                 && jewel.effects[e].points > 0) ==>
        && Value()[0] == (if jewel.slots == 1 then 1 else 0)
        && Value()[1] == (if jewel.slots == 2 then 1 else if jewel.slots == 3 then 16 else 0)
        && Value()[2] == 0 && ShowPoints(Value(), jewel.effects, effects)
    {
      bytes := new int[BYTES](_ => 0);
      new;
      var valid := Helps(jewel, skillIds);
      if !valid {
        assert bytes[..] == ZERO;
        return;
      }
      SetSlots(jewel.slots);
      SetEffects(jewel.effects, effects);
      JewelBytes(bytes[..], jewel, effects);
      BytesShow(bytes[..], jewel.effects, effects);
    }

    static lemma JewelBytes(bytes: seq<int>, jewel: Jewel, effects: seq<Effect>)
      requires |effects| <= EFFECTS && |bytes| == BYTES && bytes[..2] == SlotBytes(jewel.slots) && bytes[2] == 0
      requires bytes[EFFECTS_BEGIN..] == EffectBytes(jewel.effects, effects)
      ensures bytes == JewelSignature(jewel, effects)
    {
      hide EffectBytes, SlotBytes;
      assert bytes == bytes[..2] + [bytes[2]] + bytes[EFFECTS_BEGIN..];
    }

    static method Helps(jewel: Jewel, skillIds: seq<int>) returns (valid: bool)
      ensures valid == JewelValid(jewel, skillIds)
    {
      valid := false;
      for s := 0 to |skillIds|
        invariant valid <==> exists t, e :: 0 <= t < s && 0 <= e < |jewel.effects| &&
                               skillIds[t] == jewel.effects[e].id && jewel.effects[e].points > 0
      {
        ghost var before := valid;
        for n := 0 to |jewel.effects|
          invariant valid <==> before || exists e :: 0 <= e < n && skillIds[s] == jewel.effects[e].id && jewel.effects[e].points > 0
        {
          if skillIds[s] == jewel.effects[n].id {
            if jewel.effects[n].points > 0 {
              valid := true;
            }
          }
        }
      }
    }

    method SetSlots(slots: int)
      requires Valid() && bytes[0] == 0 && bytes[1] == 0
      modifies bytes
      ensures Valid() && bytes[..2] == SlotBytes(slots) && bytes[2..] == old(bytes[2..])
      ensures forall i :: 2 <= i < BYTES ==> bytes[i] == old(bytes[i])
    {
      if 1 == slots {
        bytes[0] := 1;
      } else if 2 == slots {
        bytes[1] := 1;
      } else if 3 == slots {
        bytes[1] := 16;
      }
    }

    /** Of several entries for a skill, the last one stays. */
    method SetEffects(own: seq<Effect>, effects: seq<Effect>)
      requires Valid() && |effects| <= EFFECTS && forall i :: EFFECTS_BEGIN <= i < BYTES ==> bytes[i] == 0
      modifies bytes
      ensures Valid() && bytes[..EFFECTS_BEGIN] == old(bytes[..EFFECTS_BEGIN])
      ensures bytes[EFFECTS_BEGIN..] == EffectBytes(own, effects)
    {
      hide LastPoints;
      var byteId := EFFECTS_BEGIN;
      for e := 0 to |effects|
        invariant Valid() && byteId == EFFECTS_BEGIN + e && bytes[..EFFECTS_BEGIN] == old(bytes[..EFFECTS_BEGIN])
        invariant forall i :: 0 <= i < e ==> bytes[EFFECTS_BEGIN + i] == AsChar(LastPoints(own, effects[i].id))
        invariant forall i :: EFFECTS_BEGIN + e <= i < BYTES ==> bytes[i] == 0
      {
        SetEffect(own, effects[e].id, byteId);
        byteId := byteId + 1;
      }
    }

    method SetEffect(own: seq<Effect>, id: int, byteId: nat)
      requires Valid() && EFFECTS_BEGIN <= byteId < BYTES && bytes[byteId] == 0
      modifies bytes
      ensures Valid() && bytes[byteId] == AsChar(LastPoints(own, id))
      ensures forall i :: 0 <= i < BYTES && i != byteId ==> bytes[i] == old(bytes[i])
    {
      for n := 0 to |own|
        invariant Valid() && bytes[byteId] == AsChar(LastPoints(own[..n], id))
        invariant forall i :: 0 <= i < BYTES && i != byteId ==> bytes[i] == old(bytes[i])
      {
        assert own[..n + 1][..n] == own[..n];
        if id == own[n].id {
          bytes[byteId] := AsChar(own[n].points);
        }
      }
      assert own[..|own|] == own;
    }

    /** Moves the slots into the body bits of byte 2 and multiplies the points, all in place. */
    method BodyRefactor(multiplier: int)
      requires Valid()
      modifies bytes
      ensures Valid() && Value() == Signatures.BodyRefactor(old(Value()), multiplier)
    {
      hide OrInto;
      if multiplier > 1 {
        ghost var was := Value();
        if 0 != bytes[0] {
          OrIntoRange(bytes[2], 0x08 * bytes[0]);
          bytes[2] := OrInto(bytes[2], 0x08 * bytes[0]);
        }
        if 0 != bytes[1] % 16 {
          OrIntoRange(bytes[2], 0x20);
          bytes[2] := OrInto(bytes[2], 0x20);
        }
        if 0 != bytes[1] / 16 {
          OrIntoRange(bytes[2], 0x40);
          bytes[2] := OrInto(bytes[2], 0x40);
        }
        assert bytes[2] == WithBodySlots(was[2], KeySlots(was));
        SmallByte(bytes[2]);
        bytes[0] := 0;
        bytes[1] := 0;
        MultiplyPoints(multiplier);
        assert Value() == Signatures.BodyRefactor(was, multiplier);
      }
    }

    method MultiplyPoints(multiplier: int)
      requires Valid()
      modifies bytes
      ensures Valid() && forall i :: 0 <= i < BYTES ==>
        bytes[i] == if i < EFFECTS_BEGIN then old(bytes[i]) else AsChar(old(bytes[i]) * multiplier)
    {
      hide AsChar;
      for i := EFFECTS_BEGIN to BYTES
        invariant Valid()
        invariant forall j :: 0 <= j < BYTES ==>
          bytes[j] == if EFFECTS_BEGIN <= j < i then AsChar(old(bytes[j]) * multiplier) else old(bytes[j])
      {
        bytes[i] := AsChar(bytes[i] * multiplier);
      }
    }

    /** operator*= */
    method TimesAssign(multiplier: int)
      requires Valid()
      modifies bytes
      ensures Valid() && Value() == Times(old(Value()), multiplier)
    {
      MultiplyPoints(multiplier);
    }

    /** operator+= */
    method AddAssign(other: Signature)
      requires Valid()
      modifies bytes
      ensures Valid() && Value() == Add(old(Value()), other)
    {
      hide AsChar;
      for i := 0 to BYTES
        invariant Valid()
        invariant forall j :: 0 <= j < BYTES ==>
          bytes[j] == if j < i then AsChar(old(bytes[j]) + other[j]) else old(bytes[j])
      {
        bytes[i] := AsChar(bytes[i] + other[i]);
      }
    }

    /** operator|, into a signature whose slot bytes are zero. */
    static method OrOf(a: Signature, b: Signature) returns (key: SignatureBuffer)
      ensures fresh(key) && fresh(key.bytes) && key.Valid() && key.Value() == Or(a, b)
    {
      hide AsChar;
      key := new SignatureBuffer();
      for i := EFFECTS_BEGIN to BYTES
        invariant key.Valid() && fresh(key.bytes)
        invariant forall j :: 0 <= j < BYTES ==>
          key.bytes[j] == if EFFECTS_BEGIN <= j < i then AsChar(a[j] + b[j]) else 0
      {
        key.bytes[i] := AsChar(a[i] + b[i]);
      }
    }

    /** The slot bytes are cleared, byte 2 stays as it is, the points are negated. */
    method Invert()
      requires Valid()
      modifies bytes
      ensures Valid() && Value() == InverseOf(old(Value()))
    {
      hide AsChar;
      bytes[0] := 0;
      bytes[1] := 0;
      for i := EFFECTS_BEGIN to BYTES
        invariant Valid()
        invariant forall j :: 0 <= j < BYTES ==>
          bytes[j] == if j < 2 then 0 else if EFFECTS_BEGIN <= j < i then AsChar(-old(bytes[j])) else old(bytes[j])
      {
        bytes[i] := AsChar(-bytes[i]);
      }
    }

    static method TestZero(a: Signature) returns (zero: bool)
      ensures zero == IsZero(a)
    {
      for i := 0 to BYTES
        invariant forall j :: 0 <= j < i ==> a[j] == 0
      {
        if a[i] != 0 {
          return false;
        }
      }
      zero := true;
    }

    static method TestSatisfy(test: Signature, inverseTarget: Signature) returns (satisfied: bool)
      ensures satisfied == Satisfy(test, inverseTarget)
    {
      for i := EFFECTS_BEGIN to BYTES
        invariant forall j :: EFFECTS_BEGIN <= j < i ==> test[j] + inverseTarget[j] >= 0
      {
        if test[i] + inverseTarget[i] < 0 {
          return false;
        }
      }
      satisfied := true;
    }
  }

  /** From byte 3 on, the points that the list gives to each effect, wrapped to a signed byte, and zero for other effects. */
  ghost predicate ShowPoints(bytes: seq<int>, own: seq<Effect>, effects: seq<Effect>)
    requires |effects| <= EFFECTS && |bytes| == BYTES
  {
    && (forall e, i :: 0 <= e < |effects| && 0 <= i < |own| && DistinctIds(own) && own[i].id == effects[e].id ==>
          bytes[3 + e] == (own[i].points + 128) % 256 - 128)
    && (forall e :: 0 <= e < |effects| && (forall i :: 0 <= i < |own| ==> own[i].id != effects[e].id) ==> bytes[3 + e] == 0)
    && (forall b :: 3 + |effects| <= b < BYTES ==> bytes[b] == 0)
  }

  lemma BytesShow(bytes: seq<int>, own: seq<Effect>, effects: seq<Effect>)
    requires |effects| <= EFFECTS && |bytes| == BYTES && bytes[EFFECTS_BEGIN..] == EffectBytes(own, effects)
    ensures ShowPoints(bytes, own, effects)
  {
    hide LastPoints, PointsOf;
    forall e | 0 <= e < EFFECTS
      ensures bytes[3 + e] == EffectBytes(own, effects)[e]
    {
      assert bytes[3 + e] == bytes[EFFECTS_BEGIN..][e];
    }
    forall e | 0 <= e < |effects|
      ensures DistinctIds(own) ==> bytes[3 + e] == AsChar(PointsOf(own, effects[e].id))
      ensures (forall i :: 0 <= i < |own| ==> own[i].id != effects[e].id) ==> bytes[3 + e] == 0
    {
      LastPointsListed(own, effects[e].id);
      if DistinctIds(own) {
        LastPointsIsPointsOf(own, effects[e].id);
        PointsOfDistinct(own, effects[e].id);
      }
    }
    forall b | 3 + |effects| <= b < BYTES
      ensures bytes[b] == 0
    {
      assert bytes[b] == EffectBytes(own, effects)[b - 3];
    }
    if DistinctIds(own) {
      forall e, i | 0 <= e < |effects| && 0 <= i < |own| && own[i].id == effects[e].id
        ensures bytes[3 + e] == (own[i].points + 128) % 256 - 128
      {
        PointsOfDistinct(own, effects[e].id);
      }
    }
  }

  lemma OrIntoRange(byte: int, bits: int)
    ensures -128 <= OrInto(byte, bits) < 128
  {
  }

  lemma SmallByte(x: int)
    requires -128 <= x < 128
    ensures AsChar(x) == x
  {
  }
}
