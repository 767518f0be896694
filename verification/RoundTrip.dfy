/** What the printer writes, the C# reader reads back. */
module RoundTrips {
  import opened Datasets
  import opened Numerals
  import opened Tokens
  import opened DexFormatters
  import opened ResultParsers

  predicate AllInInt32(ns: seq<int>) {
    forall n :: 0 <= n < |ns| ==> InInt32(ns[n])
  }

  // ---------- Tokens ----------

  lemma ReadParenthesis(tail: string)
    ensures NextToken("(" + tail) == Scan(true, Token(OpenParenthesis, ""), tail)
    ensures NextToken(")" + tail) == Scan(true, Token(CloseParenthesis, ""), tail)
  {
    assert ("(" + tail)[1..] == tail;
    assert (")" + tail)[1..] == tail;
  }

  /** Leading white space makes no difference. */
  lemma ReadSpace(s: string)
    ensures NextToken(" " + s) == NextToken(s) && NextToken("\n" + s) == NextToken(s)
  {
    hide StringFrom;
    assert (" " + s)[1..] == s;
    assert ("\n" + s)[1..] == s;
  }

  /** The other tokens; a character that starts none stays where it is. */
  lemma OtherTokens(c: char, word: string, tail: string)
    ensures NextToken("") == Scan(false, NO_TOKEN, "")
    ensures NextToken("T" + tail) == Scan(true, Token(TrueValue, ""), tail)
    ensures NextToken("NIL" + tail) == Scan(true, Token(Nil, ""), tail)
    ensures c !in "() \t\n\r:\"TN-0123456789" && !IsWhiteSpace(c) ==>
      NextToken([c] + tail) == Scan(true, Token(InvalidToken, ""), [c] + tail)
    ensures '"' !in word && '\\' !in word ==> NextToken("\"" + word + "\"" + tail) == Scan(true, Token(String, word), tail)
  {
    hide NextToken, StringFrom;
    ReadLetters(tail);
    if c !in "() \t\n\r:\"TN-0123456789" && !IsWhiteSpace(c) {
      ReadNothing(c, tail);
    }
    if '"' !in word && '\\' !in word {
      ReadQuoted(word, tail, "");
      QuoteOpens(word + "\"" + tail);
      assert "\"" + word + "\"" + tail == "\"" + (word + "\"" + tail);
    }
  }

  lemma ReadLetters(tail: string)
    ensures NextToken("") == Scan(false, NO_TOKEN, "")
    ensures NextToken("T" + tail) == Scan(true, Token(TrueValue, ""), tail)
    ensures NextToken("NIL" + tail) == Scan(true, Token(Nil, ""), tail)
  {
    hide StringFrom, WordLength, DigitLength;
    assert ("T" + tail)[1..] == tail && ("NIL" + tail)[3..] == tail;
  }

  lemma ReadNothing(c: char, tail: string)
    requires c !in "() \t\n\r:\"TN-0123456789" && !IsWhiteSpace(c)
    ensures NextToken([c] + tail) == Scan(true, Token(InvalidToken, ""), [c] + tail)
  {
    hide StringFrom, WordLength, DigitLength;
    DigitsAre(c);
  }

  lemma QuoteOpens(s: string)
    ensures NextToken("\"" + s) == StringFrom(s, false, "")
  {
    hide StringFrom, WordLength, DigitLength;
    assert ("\"" + s)[1..] == s;
  }

  lemma {:induction false} ReadQuoted(word: string, tail: string, before: string)
    requires '"' !in word && '\\' !in word
    ensures StringFrom(word + "\"" + tail, false, before) == Scan(true, Token(String, before + word), tail)
  {
    var s := word + "\"" + tail;
    if word == "" {
      assert s == "\"" + tail && s[1..] == tail && before + word == before;
    } else {
      assert s[0] == word[0] && s[1..] == word[1..] + "\"" + tail;
      assert before + [word[0]] + word[1..] == before + word;
      ReadQuoted(word[1..], tail, before + [word[0]]);
    }
  }

  /** A text that does not begin with a digit. */
  predicate Ends(tail: string) { tail != "" && !IsDigit(tail[0]) }

  lemma {:induction false} DigitsEnd(digits: string, tail: string)
    requires AllDigits(digits) && Ends(tail)
    ensures DigitLength(digits + tail) == |digits|
  {
    if digits == "" {
      assert digits + tail == tail;
    } else {
      assert (digits + tail)[1..] == digits[1..] + tail;
      DigitsEnd(digits[1..], tail);
    }
  }

  lemma ReadNumberText(n: int, tail: string)
    requires Ends(tail)
    ensures NextToken(NumberText(n) + tail) == Scan(true, Token(Number, NumberText(n)), tail)
  {
    hide StringFrom, NumberText, DigitLength;
    NumberShape(n);
    var t := NumberText(n);
    assert (t + tail)[1..] == t[1..] + tail;
    DigitsEnd(t[1..], tail);
    assert SkipSpaces(t + tail) == t + tail;
    assert (t + tail)[..|t|] == t && (t + tail)[|t|..] == tail;
  }

  lemma {:induction false} WordEnds(word: string, tail: string)
    requires forall i :: 0 <= i < |word| ==> !IsWhiteSpace(word[i])
    ensures WordLength(word + " " + tail) == |word|
  {
    if word == "" {
      assert word + " " + tail == " " + tail;
    } else {
      assert (word + " " + tail)[1..] == word[1..] + " " + tail;
      WordEnds(word[1..], tail);
    }
  }

  lemma ReadLabel(part: int, tail: string)
    ensures NextToken(":" + Label(part) + " " + tail) == Scan(true, Token(Keyword, Label(part)), " " + tail)
  {
    hide NextToken, WordLength;
    assert forall i :: 0 <= i < |Label(part)| ==> !IsWhiteSpace(Label(part)[i]);
    ReadWord(Label(part), tail);
  }

  lemma ReadWord(word: string, tail: string)
    requires forall i :: 0 <= i < |word| ==> !IsWhiteSpace(word[i])
    ensures NextToken(":" + word + " " + tail) == Scan(true, Token(Keyword, word), " " + tail)
  {
    hide StringFrom, DigitLength, WordLength, Drop;
    WordEnds(word, tail);
    var s := ":" + word + " " + tail;
    assert s[0] == ':' && s[1..] == word + " " + tail;
    assert (word + " " + tail)[..|word|] == word && (word + " " + tail)[|word|..] == " " + tail;
  }

  // ---------- Lists of numbers ----------

  lemma ReadOneInteger(n: int, tail: string, read: seq<int>)
    requires InInt32(n) && Ends(tail)
    ensures Integers(NumberText(n) + tail, read) == Integers(tail, read + [n])
    ensures ExpectNumber(NumberText(n) + tail) == Got(n, tail)
  {
    hide NextToken, NumberText, ToInt32;
    ReadNumberText(n, tail);
    NumberReadBack(n);
  }

  lemma IntegersAfterSpace(s: string, read: seq<int>)
    ensures Integers(" " + s, read) == Integers(s, read)
  {
    hide NextToken;
    ReadSpace(s);
  }

  lemma IntegersEnd(tail: string, read: seq<int>)
    ensures Integers(")" + tail, read) == Got(read, tail)
  {
    hide NextToken;
    ReadParenthesis(tail);
  }

  lemma SpacedStep(ns: seq<int>, tail: string)
    ensures ns == [] ==> Spaced(ns) + ")" + tail == ")" + tail
    ensures ns != [] ==> Spaced(ns) + ")" + tail == NumberText(ns[0]) + (" " + (Spaced(ns[1..]) + ")" + tail))
  {
    hide NumberText;
    if ns != [] {
      assert Spaced(ns) + ")" + tail == NumberText(ns[0]) + " " + Spaced(ns[1..]) + ")" + tail;
    }
  }

  lemma {:induction false} ReadSpaced(ns: seq<int>, tail: string, read: seq<int>)
    requires AllInInt32(ns)
    ensures Integers(Spaced(ns) + ")" + tail, read) == Got(read + ns, tail)
  {
    hide NumberText, Integers, Spaced;
    SpacedStep(ns, tail);
    if ns == [] {
      assert read + ns == read;
      IntegersEnd(tail, read);
    } else {
      var rest := Spaced(ns[1..]) + ")" + tail;
      ReadOneInteger(ns[0], " " + rest, read);
      IntegersAfterSpace(rest, read + [ns[0]]);
      ReadSpaced(ns[1..], tail, read + [ns[0]]);
      assert read + [ns[0]] + ns[1..] == read + ns;
    }
  }

  lemma {:induction false} ReadPreceded(ns: seq<int>, tail: string, read: seq<int>)
    requires AllInInt32(ns)
    ensures Ends(Preceded(ns) + ")" + tail)
    ensures Integers(Preceded(ns) + ")" + tail, read) == Got(read + ns, tail)
  {
    hide NumberText, Integers, Preceded;
    if ns == [] {
      NothingPreceded(ns, tail);
      assert read + ns == read;
      IntegersEnd(tail, read);
    } else {
      var rest := Preceded(ns[1..]) + ")" + tail;
      FirstPreceded(ns, tail);
      IntegersAfterSpace(NumberText(ns[0]) + rest, read);
      ReadPreceded(ns[1..], tail, read + [ns[0]]);
      ReadOneInteger(ns[0], rest, read);
      assert read + [ns[0]] + ns[1..] == read + ns;
    }
  }

  lemma NothingPreceded(ns: seq<int>, tail: string)
    requires ns == []
    ensures Preceded(ns) + ")" + tail == ")" + tail
  {
  }

  lemma FirstPreceded(ns: seq<int>, tail: string)
    requires ns != []
    ensures Preceded(ns) + ")" + tail == " " + (NumberText(ns[0]) + (Preceded(ns[1..]) + ")" + tail))
  {
    hide NumberText;
  }

  lemma ExpectOpen(tail: string)
    ensures Expect("(" + tail, OpenParenthesis) == Got(true, tail)
    ensures Expect(" (" + tail, OpenParenthesis) == Got(true, tail)
    ensures Expect(")" + tail, CloseParenthesis) == Got(true, tail)
  {
    hide NextToken;
    ReadParenthesis(tail);
    ReadSpace("(" + tail);
    assert " " + ("(" + tail) == " (" + tail;
  }

  /** A vector, as the effects of an amulet are written. */
  lemma ReadVector(ns: seq<int>, tail: string)
    requires AllInInt32(ns)
    ensures IntegerList(VectorText(ns) + tail) == Got(ns, tail)
  {
    hide Expect, Integers, Spaced;
    assert VectorText(ns) + tail == "(" + (Spaced(ns) + ")" + tail);
    ExpectOpen(Spaced(ns) + ")" + tail);
    ReadSpaced(ns, tail, []);
    assert [] + ns == ns;
  }

  /** A list, as jewels are written, after a space. */
  lemma ReadList(ns: seq<int>, tail: string)
    requires AllInInt32(ns)
    ensures IntegerList(" " + ListText(ns) + tail) == Got(ns, tail)
  {
    hide Expect, Integers, Preceded, NumberText;
    if ns == [] {
      assert " " + ListText(ns) + tail == " (" + (")" + tail);
      ExpectOpen(")" + tail);
      IntegersEnd(tail, []);
    } else {
      var rest := Preceded(ns[1..]) + ")" + tail;
      assert " " + ListText(ns) + tail == " (" + (NumberText(ns[0]) + rest);
      ExpectOpen(NumberText(ns[0]) + rest);
      ReadPreceded(ns[1..], tail, [] + [ns[0]]);
      ReadOneInteger(ns[0], rest, []);
      assert [] + [ns[0]] + ns[1..] == ns;
    }
  }

  // ---------- Parts ----------

  /** The armors stand in their parts, and every number that is written is a 32-bit integer. */
  predicate Printable(data: Data, external: ExternalIds, armors: ArmorSet) {
    && armors.Valid(data)
    && forall p :: 0 <= p < PART_NUM ==> PartPrintable(data, external, armors.ids[p], armors.jewels[p], p)
  }

  predicate PartPrintable(data: Data, external: ExternalIds, id: int, jewels: seq<int>, p: int) {
    && data.IsArmor(id) && data.armors[id].part == p
    && InInt32(data.armors[id].slots) && InInt32(external.Armor(id)) && AllInInt32(external.Jewels(jewels))
    && forall e :: 0 <= e < |data.armors[id].effects| ==>
         InInt32(external.Skill(data.armors[id].effects[e].id)) && InInt32(data.armors[id].effects[e].points)
  }

  function ShownEffects(effects: seq<Effect>, external: ExternalIds): seq<SkillEntry> {
    if effects == [] then [] else [SkillEntry(external.Skill(effects[0].id), effects[0].points)] + ShownEffects(effects[1..], external)
  }

  /** How a part appears on the other side; of an amulet, its first two effects. */
  function ShownPiece(data: Data, external: ExternalIds, id: int, jewels: seq<int>): Piece
    requires data.IsArmor(id)
  {
    Piece(if data.armors[id].part == GEAR then data.armors[id].slots else external.Armor(id), external.Jewels(jewels))
  }

  function ShownAmulet(data: Data, external: ExternalIds, id: int, jewels: seq<int>): Amulet
    requires data.IsArmor(id)
  {
    var effects := data.armors[id].effects;
    Amulet(ShownEffects(if |effects| <= 2 then effects else effects[..2], external), external.Jewels(jewels))
  }

  /** How a whole set appears. */
  function Shown(data: Data, external: ExternalIds, armors: ArmorSet): Answer
    requires armors.Valid(data)
  {
    var ids, jewels := armors.ids, armors.jewels;
    Answer(ShownPiece(data, external, ids[GEAR], jewels[GEAR]), ShownPiece(data, external, ids[HEAD], jewels[HEAD]),
           ShownPiece(data, external, ids[BODY], jewels[BODY]), ShownPiece(data, external, ids[1], jewels[1]),
           ShownPiece(data, external, ids[2], jewels[2]), ShownPiece(data, external, ids[3], jewels[3]),
           ShownAmulet(data, external, ids[AMULET], jewels[AMULET]),
           ShownPiece(data, external, ids[GEAR], jewels[GEAR]).id)
  }

  function InstructionFor(part: int): Instruction {
    if part == HEAD then Head else if part == 1 then Arms else if part == 2 then Waist else if part == 3 then Legs
    else if part == GEAR then Gear else if part == AMULET then AmuletPart else Body
  }

  lemma LabelInstruction(part: int)
    ensures InstructionOf(Token(Keyword, Label(part))) == InstructionFor(part)
  {
    hide ToLower;
    LowerLabel(part);
  }

  lemma LowerLabel(part: int)
    ensures ToLower(Label(part)) ==
            if part == HEAD then "head" else if part == 1 then "arms" else if part == 2 then "waist" else if part == 3 then "legs"
            else if part == GEAR then "gear" else if part == AMULET then "amulet" else "body"
  {
    hide ToLower;
    if part == HEAD {
      LowerWord("HEAD", "head");
    } else if part == 1 {
      LowerWord("ARMS", "arms");
    } else if part == 2 {
      LowerWord("WAIST", "waist");
    } else if part == 3 {
      LowerWord("LEGS", "legs");
    } else if part == GEAR {
      LowerWord("GEAR", "gear");
    } else if part == AMULET {
      LowerWord("AMULET", "amulet");
    } else {
      LowerWord("BODY", "body");
    }
  }

  lemma {:induction false} LowerWord(word: string, lower: string)
    requires |word| == |lower| && forall i :: 0 <= i < |word| ==> Lower(word[i]) == lower[i]
    ensures ToLower(word) == lower
  {
    if word != "" {
      LowerWord(word[1..], lower[1..]);
    }
  }

  /** Part names are read in any mixture of cases. */
  lemma AnyCase(word: string, lower: string)
    requires |word| == |lower| && lower in ["head", "arms", "waist", "legs", "gear", "amulet", "body"]
    requires forall i :: 0 <= i < |word| ==> word[i] == lower[i] || exists n :: 0 <= n < 26 && word[i] == CAPITALS[n] && lower[i] == SMALL[n]
    ensures InstructionOf(Token(Keyword, word)) ==
      if lower == "head" then Head else if lower == "arms" then Arms else if lower == "waist" then Waist else if lower == "legs" then Legs
      else if lower == "gear" then Gear else if lower == "amulet" then AmuletPart else Body
  {
    hide ToLower;
    forall i | 0 <= i < |word|
      ensures Lower(word[i]) == lower[i]
    {
      if word[i] != lower[i] {
        var n :| 0 <= n < 26 && word[i] == CAPITALS[n] && lower[i] == SMALL[n];
        LowerIs(word[i], n);
      } else {
        SmallStays(lower, i);
      }
    }
    LowerWord(word, lower);
  }

  lemma SmallStays(lower: string, i: nat)
    requires i < |lower| && lower in ["head", "arms", "waist", "legs", "gear", "amulet", "body"]
    ensures Lower(lower[i]) == lower[i]
  {
  }

  /** What one part adds to the answer. */
  function Filled(data: Data, external: ExternalIds, id: int, jewels: seq<int>, answer: Answer): Answer
    requires data.IsArmor(id)
  {
    var part := data.armors[id].part;
    if part == AMULET then answer.(amulet := ShownAmulet(data, external, id, jewels))
    else WithPiece(answer, InstructionFor(part), ShownPiece(data, external, id, jewels))
  }

  lemma ReadPiece(n: int, jewels: seq<int>, tail: string)
    requires InInt32(n) && AllInInt32(jewels)
    ensures PieceOf(" (" + NumberText(n) + " " + ListText(jewels) + ")" + tail) == Got(Piece(n, jewels), tail)
  {
    hide Expect, IntegerList, ExpectNumber, NumberText, ListText;
    var s2 := " " + ListText(jewels) + (")" + tail);
    assert " (" + NumberText(n) + " " + ListText(jewels) + ")" + tail == " (" + (NumberText(n) + s2);
    ExpectOpen(NumberText(n) + s2);
    ReadOneInteger(n, s2, []);
    ReadList(jewels, ")" + tail);
    ExpectOpen(tail);
  }

  lemma {:induction false} EffectNumbersFit(effects: seq<Effect>, external: ExternalIds)
    requires forall e :: 0 <= e < |effects| ==> InInt32(external.Skill(effects[e].id)) && InInt32(effects[e].points)
    ensures AllInInt32(EffectNumbers(effects, external)) && |EffectNumbers(effects, external)| == 2 * |effects|
  {
    if effects != [] {
      EffectNumbersFit(effects[1..], external);
    }
  }

  lemma FirstEffectsShown(effects: seq<Effect>, external: ExternalIds)
    requires |EffectNumbers(effects, external)| == 2 * |effects|
    ensures FirstEffects(EffectNumbers(effects, external))
         == ShownEffects(if |effects| <= 2 then effects else effects[..2], external)
  {
    var ns, shown := EffectNumbers(effects, external), if |effects| <= 2 then effects else effects[..2];
    if |effects| >= 1 {
      assert ns[0] == external.Skill(effects[0].id) && ns[1] == effects[0].points;
      assert ShownEffects(shown, external) == [SkillEntry(ns[0], ns[1])] + ShownEffects(shown[1..], external);
    }
    if |effects| >= 2 {
      assert ns[2] == external.Skill(effects[1].id) && ns[3] == effects[1].points;
      assert shown[1..][0] == effects[1] && shown[1..][1..] == [];
      assert ShownEffects(shown[1..], external) == [SkillEntry(ns[2], ns[3])];
    }
  }

  lemma ReadAmulet(effects: seq<Effect>, external: ExternalIds, jewels: seq<int>, tail: string)
    requires forall e :: 0 <= e < |effects| ==> InInt32(external.Skill(effects[e].id)) && InInt32(effects[e].points)
    requires AllInInt32(jewels)
    ensures AmuletOf(" (" + VectorText(EffectNumbers(effects, external)) + " " + ListText(jewels) + ")" + tail)
         == Got(Amulet(ShownEffects(if |effects| <= 2 then effects else effects[..2], external), jewels), tail)
  {
    hide Expect, IntegerList, VectorText, ListText, EffectNumbers, ShownEffects;
    var ns := EffectNumbers(effects, external);
    var s2 := " " + ListText(jewels) + (")" + tail);
    assert " (" + VectorText(ns) + " " + ListText(jewels) + ")" + tail == " (" + (VectorText(ns) + s2);
    ExpectOpen(VectorText(ns) + s2);
    EffectNumbersFit(effects, external);
    ReadVector(ns, s2);
    ReadList(jewels, ")" + tail);
    ExpectOpen(tail);
    FirstEffectsShown(effects, external);
  }

  lemma ReadPart(data: Data, external: ExternalIds, id: int, jewels: seq<int>, p: int, tail: string, answer: Answer)
    requires 0 <= p < PART_NUM && PartPrintable(data, external, id, jewels, p) && tail != ""
    ensures PartsOf(PartText(data, external, id, jewels) + tail, answer)
         == PartsOf(tail, Filled(data, external, id, jewels, answer))
  {
    hide NextToken, PieceOf, AmuletOf, InstructionOf, NumberText, ListText, VectorText, Label, EffectNumbers;
    var rest := "(" + HeadText(data, external, id) + " " + ListText(external.Jewels(jewels)) + ")" + tail;
    assert PartText(data, external, id, jewels) + tail == ":" + Label(p) + " " + rest;
    ReadLabel(p, rest);
    LabelInstruction(p);
    var s1 := " " + rest;
    assert s1 == " (" + HeadText(data, external, id) + " " + ListText(external.Jewels(jewels)) + ")" + tail;
    if p == AMULET {
      ReadAmulet(data.armors[id].effects, external, external.Jewels(jewels), tail);
    } else {
      ReadPiece(if p == GEAR then data.armors[id].slots else external.Armor(id), external.Jewels(jewels), tail);
    }
  }

  // ---------- Sets ----------

  /** The answer after the parts from `from` on. */
  function FilledFrom(data: Data, external: ExternalIds, armors: ArmorSet, from: nat, answer: Answer): Answer
    requires armors.Valid(data) && from <= PART_NUM
    decreases PART_NUM - from
  {
    if from == PART_NUM then answer
    else FilledFrom(data, external, armors, from + 1, Filled(data, external, armors.ids[from], armors.jewels[from], answer))
  }

  lemma {:induction false} ReadParts(data: Data, external: ExternalIds, armors: ArmorSet, from: nat, tail: string, answer: Answer)
    requires Printable(data, external, armors) && from <= PART_NUM
    ensures PartsOf(PartsText(data, external, armors, from) + ")" + tail, answer)
         == Got(FilledFrom(data, external, armors, from, answer), tail)
    decreases PART_NUM - from
  {
    hide PartText, PartsOf, Filled;
    if from == PART_NUM {
      assert PartsText(data, external, armors, from) + ")" + tail == ")" + tail;
      ReadComplete(tail, answer);
    } else {
      var id, jewels := armors.ids[from], armors.jewels[from];
      var rest := PartsText(data, external, armors, from + 1) + ")" + tail;
      assert PartsText(data, external, armors, from) + ")" + tail == PartText(data, external, id, jewels) + rest;
      assert PartPrintable(data, external, id, jewels, from);
      ReadPart(data, external, id, jewels, from, rest, answer);
      ReadParts(data, external, armors, from + 1, tail, Filled(data, external, id, jewels, answer));
    }
  }

  lemma ReadComplete(tail: string, answer: Answer)
    ensures PartsOf(")" + tail, answer) == Got(answer, tail)
  {
    hide NextToken;
    ReadParenthesis(tail);
  }

  lemma AllFilled(data: Data, external: ExternalIds, armors: ArmorSet)
    requires Printable(data, external, armors)
    ensures FilledFrom(data, external, armors, 0, NO_ANSWER) == Shown(data, external, armors)
  {
    hide ShownPiece, ShownAmulet;
    forall p | 0 <= p < PART_NUM
      ensures data.armors[armors.ids[p]].part == p
    {
      assert PartPrintable(data, external, armors.ids[p], armors.jewels[p], p);
    }
    var a1 := Filled(data, external, armors.ids[0], armors.jewels[0], NO_ANSWER);
    var a2 := Filled(data, external, armors.ids[1], armors.jewels[1], a1);
    var a3 := Filled(data, external, armors.ids[2], armors.jewels[2], a2);
    var a4 := Filled(data, external, armors.ids[3], armors.jewels[3], a3);
    var a5 := Filled(data, external, armors.ids[4], armors.jewels[4], a4);
    var a6 := Filled(data, external, armors.ids[5], armors.jewels[5], a5);
    var a7 := Filled(data, external, armors.ids[6], armors.jewels[6], a6);
    assert a7 == Shown(data, external, armors);
    assert FilledFrom(data, external, armors, 7, a7) == a7;
    assert FilledFrom(data, external, armors, 5, a5) == a7;
    assert FilledFrom(data, external, armors, 3, a3) == a7;
    assert FilledFrom(data, external, armors, 1, a1) == a7;
  }

  lemma ReadSet(data: Data, external: ExternalIds, armors: ArmorSet, tail: string)
    requires Printable(data, external, armors)
    ensures AnswerOf(SetText(data, external, armors) + tail) == Got(Shown(data, external, armors), "\n" + tail)
  {
    hide Expect, PartsOf, PartsText, FilledFrom, Shown;
    var parts := PartsText(data, external, armors, 0);
    assert SetText(data, external, armors) + tail == "(" + (parts + ")" + ("\n" + tail));
    ExpectOpen(parts + ")" + ("\n" + tail));
    ReadParts(data, external, armors, 0, "\n" + tail, NO_ANSWER);
    AllFilled(data, external, armors);
  }

  // ---------- Batches ----------

  function AllShown(data: Data, external: ExternalIds, sets: seq<ArmorSet>): seq<Answer>
    requires AllValid(data, sets)
  {
    if sets == [] then [] else [Shown(data, external, sets[0])] + AllShown(data, external, sets[1..])
  }

  lemma AnswersAfterNewline(s: string)
    ensures AnswersOf("\n" + s) == AnswersOf(s)
  {
    hide NextToken, PartsOf;
    ReadSpace(s);
    assert AnswerOf("\n" + s) == AnswerOf(s);
  }

  /** What stands after the written sets is read as if it stood alone. */
  lemma {:induction false} BatchThen(data: Data, external: ExternalIds, sets: seq<ArmorSet>, tail: string)
    requires forall n :: 0 <= n < |sets| ==> Printable(data, external, sets[n])
    ensures AllValid(data, sets)
    ensures AnswersOf(BatchText(data, external, sets) + tail) == Continued(AllShown(data, external, sets), AnswersOf(tail))
  {
    hide Printable, SetText, Shown, AnswerOf;
    PrintableValid(data, external, sets);
    if sets == [] {
      assert BatchText(data, external, sets) + tail == tail;
      ContinuedNone(AnswersOf(tail));
    } else {
      var rest := BatchText(data, external, sets[1..]) + tail;
      assert BatchText(data, external, sets) + tail == SetText(data, external, sets[0]) + rest;
      ReadSet(data, external, sets[0], rest);
      AnswersAfterNewline(rest);
      BatchThen(data, external, sets[1..], tail);
      AnswersNotRefused(tail);
      OneThen(Shown(data, external, sets[0]), AllShown(data, external, sets[1..]), AnswersOf(tail));
    }
  }

  lemma OneThen(answer: Answer, answers: seq<Answer>, r: Read<seq<Answer>>)
    ensures Continued([answer], Continued(answers, r)) == Continued([answer] + answers, r)
  {
    if r.Got? {
      assert [answer] + (answers + r.value) == [answer] + answers + r.value;
    }
  }

  /** Reading what was written gives back every set, in order: the ids, the weapon slots, the jewels and the amulet's
      first two effects. A set that breaks off ends the reading, and the sets before it stay. */
  lemma BatchReadsBack(data: Data, external: ExternalIds, sets: seq<ArmorSet>)
    requires forall n :: 0 <= n < |sets| ==> Printable(data, external, sets[n])
    ensures AllValid(data, sets)
    ensures AnswersOf(BatchText(data, external, sets)) == Got(AllShown(data, external, sets), "")
    ensures AnswersOf(BatchText(data, external, sets) + "(:HEAD (") == Got(AllShown(data, external, sets), "")
  {
    hide Printable, BatchText, AllShown, AnswersOf;
    BatchThen(data, external, sets, "");
    BatchThen(data, external, sets, "(:HEAD (");
    assert BatchText(data, external, sets) + "" == BatchText(data, external, sets);
    assert AllShown(data, external, sets) + [] == AllShown(data, external, sets);
    NoAnswers();
    BrokenOff();
  }

  lemma PrintableValid(data: Data, external: ExternalIds, sets: seq<ArmorSet>)
    requires forall n :: 0 <= n < |sets| ==> Printable(data, external, sets[n])
    ensures AllValid(data, sets)
  {
    hide PartPrintable, ArmorSet.Valid;
  }

  lemma NoAnswers()
    ensures AnswersOf("") == Got([], "")
  {
  }

  /** A number beyond 32 bits raises an exception, which loses the sets before it as well. */
  lemma BatchThrows(data: Data, external: ExternalIds, sets: seq<ArmorSet>, n: int, tail: string)
    requires forall i :: 0 <= i < |sets| ==> Printable(data, external, sets[i])
    requires n < -2147483648 || 2147483647 < n
    ensures AllValid(data, sets)
    ensures AnswersOf(BatchText(data, external, sets) + ("(:HEAD (" + NumberText(n) + ")" + tail)) == Threw
  {
    hide Printable, BatchText, AllShown, AnswersOf, NumberText;
    BatchThen(data, external, sets, "(:HEAD (" + NumberText(n) + ")" + tail);
    TooLarge(n, tail);
  }

  /** After the keyword of a helmet, what is read of the piece decides. */
  lemma HelmetOf(s: string)
    ensures AnswerOf("(:HEAD " + s) ==
      match PieceOf(" " + s)
      case Threw => Threw
      case Refused(rest) => Refused(rest)
      case Got(piece, rest) => if rest == "" then Refused(rest) else PartsOf(rest, NO_ANSWER.(head := piece))
  {
    hide NextToken, PieceOf, InstructionOf;
    assert "(:HEAD " + s == "(" + (":" + "HEAD" + " " + s);
    ExpectOpen(":" + "HEAD" + " " + s);
    ReadWord("HEAD", s);
    LabelInstruction(0);
  }

  lemma BrokenOff()
    ensures AnswersOf("(:HEAD (") == Got([], "")
  {
    hide PieceOf, AnswerOf;
    HelmetOf("(");
    assert "(:HEAD " + "(" == "(:HEAD (" && " " + "(" == " (";
    PieceMissing();
  }

  lemma PieceMissing()
    ensures PieceOf(" (") == Refused("")
  {
    hide NextToken;
    ReadSpace("(");
    ReadParenthesis("");
    OtherTokens(' ', "", "");
    assert " " + "(" == " (" && "(" + "" == "(";
  }

  lemma TooLarge(n: int, tail: string)
    requires n < -2147483648 || 2147483647 < n
    ensures AnswersOf("(:HEAD (" + NumberText(n) + ")" + tail) == Threw
  {
    hide PieceOf, AnswerOf, NumberText;
    var rest := "(" + (NumberText(n) + (")" + tail));
    HelmetOf(rest);
    assert "(:HEAD (" + NumberText(n) + ")" + tail == "(:HEAD " + rest;
    PieceTooLarge(n, ")" + tail);
  }

  lemma PieceTooLarge(n: int, tail: string)
    requires (n < -2147483648 || 2147483647 < n) && Ends(tail)
    ensures PieceOf(" " + ("(" + (NumberText(n) + tail))) == Threw
  {
    hide NextToken, NumberText, ToInt32, IntegerList;
    assert " " + ("(" + (NumberText(n) + tail)) == " (" + (NumberText(n) + tail);
    ExpectOpen(NumberText(n) + tail);
    ReadNumberText(n, tail);
    NumberTooLarge(n);
  }

  /** The token before a list, and the one before a piece, may be any. */
  lemma OpenIgnored(s: string, r: string)
    requires NextToken(s).Scan? && NextToken(r).Scan? && NextToken(s).rest == NextToken(r).rest
    ensures IntegerList(s) == IntegerList(r) && PieceOf(s) == PieceOf(r) && AmuletOf(s) == AmuletOf(r)
  {
    hide NextToken, Integers, ExpectNumber;
  }

  /** The tables have numbers for the armors, the jewels and the amulet's skills. */
  predicate Known(data: Data, external: ExternalIds, armors: ArmorSet)
    requires armors.Valid(data)
  {
    && (forall p :: 0 <= p < 7 && p != 4 && p != 5 ==> armors.ids[p] in external.armors)
    && (forall p, n :: 0 <= p < 7 && 0 <= n < |armors.jewels[p]| ==> armors.jewels[p][n] in external.jewels)
    && (forall e :: 0 <= e < |data.armors[armors.ids[5]].effects| ==> data.armors[armors.ids[5]].effects[e].id in external.skills)
  }

  /** The jewels that are read, in the order in which they sit in the part. */
  predicate JewelsShown(external: ExternalIds, shown: seq<int>, jewels: seq<int>) {
    |shown| == |jewels| && forall n :: 0 <= n < |jewels| && jewels[n] in external.jewels ==> shown[n] == external.jewels[jewels[n]]
  }

  /** What is read of a set, number by number. */
  lemma ShownIs(data: Data, external: ExternalIds, armors: ArmorSet)
    requires Printable(data, external, armors) && armors.Valid(data) && Known(data, external, armors)
    ensures var a, ids := Shown(data, external, armors), armors.ids;
      && a.head.id == external.armors[ids[0]] && a.arms.id == external.armors[ids[1]] && a.waist.id == external.armors[ids[2]]
      && a.legs.id == external.armors[ids[3]] && a.body.id == external.armors[ids[6]]
      && a.gear.id == a.weaponSlots == data.armors[ids[4]].slots
    ensures var a, jewels := Shown(data, external, armors), armors.jewels;
      && JewelsShown(external, a.head.jewels, jewels[0]) && JewelsShown(external, a.arms.jewels, jewels[1])
      && JewelsShown(external, a.waist.jewels, jewels[2]) && JewelsShown(external, a.legs.jewels, jewels[3])
      && JewelsShown(external, a.gear.jewels, jewels[4]) && JewelsShown(external, a.amulet.jewels, jewels[5])
      && JewelsShown(external, a.body.jewels, jewels[6])
    ensures var shown, effects := Shown(data, external, armors).amulet.effects, data.armors[armors.ids[5]].effects;
      && |shown| == (if |effects| < 2 then |effects| else 2)
      && forall e :: 0 <= e < |shown| ==> shown[e] == SkillEntry(external.skills[effects[e].id], effects[e].points)
  {
    hide PartPrintable;
    forall p | 0 <= p < 7
      ensures data.armors[armors.ids[p]].part == p
    {
      PartStands(data, external, armors, p);
    }
    var effects := data.armors[armors.ids[5]].effects;
    EffectsShown(if |effects| <= 2 then effects else effects[..2], external);
  }

  lemma PartStands(data: Data, external: ExternalIds, armors: ArmorSet, p: int)
    requires Printable(data, external, armors) && 0 <= p < 7
    ensures armors.Valid(data) && data.armors[armors.ids[p]].part == p
  {
    assert PartPrintable(data, external, armors.ids[p], armors.jewels[p], p);
  }

  lemma {:induction false} EffectsShown(effects: seq<Effect>, external: ExternalIds)
    ensures |ShownEffects(effects, external)| == |effects|
    ensures forall e :: 0 <= e < |effects| && effects[e].id in external.skills ==>
      ShownEffects(effects, external)[e] == SkillEntry(external.skills[effects[e].id], effects[e].points)
  {
    if effects != [] {
      EffectsShown(effects[1..], external);
      forall e | 0 <= e < |effects| && effects[e].id in external.skills
        ensures ShownEffects(effects, external)[e] == SkillEntry(external.skills[effects[e].id], effects[e].points)
      {
        if e > 0 {
          assert effects[1..][e - 1] == effects[e];
        }
      }
    }
  }

  /** The numbers of a whole batch, looked up in the tables by what was written. */
  lemma BatchNumbers(data: Data, external: ExternalIds, sets: seq<ArmorSet>, n: nat)
    requires forall i :: 0 <= i < |sets| ==> Printable(data, external, sets[i])
    requires n < |sets| && sets[n].Valid(data) && Known(data, external, sets[n])
    ensures AllValid(data, sets) && AnswersOf(BatchText(data, external, sets)).Got?
    ensures |AnswersOf(BatchText(data, external, sets)).value| == |sets|
    ensures var a, ids := AnswersOf(BatchText(data, external, sets)).value[n], sets[n].ids;
      && a.head.id == external.armors[ids[0]] && a.arms.id == external.armors[ids[1]] && a.waist.id == external.armors[ids[2]]
      && a.legs.id == external.armors[ids[3]] && a.body.id == external.armors[ids[6]]
      && a.gear.id == a.weaponSlots == data.armors[ids[4]].slots
    ensures var a, jewels := AnswersOf(BatchText(data, external, sets)).value[n], sets[n].jewels;
      && JewelsShown(external, a.head.jewels, jewels[0]) && JewelsShown(external, a.arms.jewels, jewels[1])
      && JewelsShown(external, a.waist.jewels, jewels[2]) && JewelsShown(external, a.legs.jewels, jewels[3])
      && JewelsShown(external, a.gear.jewels, jewels[4]) && JewelsShown(external, a.amulet.jewels, jewels[5])
      && JewelsShown(external, a.body.jewels, jewels[6])
    ensures var shown, effects := AnswersOf(BatchText(data, external, sets)).value[n].amulet.effects, data.armors[sets[n].ids[5]].effects;
      && |shown| == (if |effects| < 2 then |effects| else 2)
      && forall e :: 0 <= e < |shown| ==> shown[e] == SkillEntry(external.skills[effects[e].id], effects[e].points)
  {
    hide Printable, Shown, AnswersOf, BatchText;
    BatchReadsBack(data, external, sets);
    AllShownAt(data, external, sets, n);
    ShownIs(data, external, sets[n]);
  }

  lemma {:induction false} AllShownAt(data: Data, external: ExternalIds, sets: seq<ArmorSet>, n: nat)
    requires AllValid(data, sets) && n < |sets|
    ensures |AllShown(data, external, sets)| == |sets| && AllShown(data, external, sets)[n] == Shown(data, external, sets[n])
  {
    hide Shown, ArmorSet.Valid;
    if n > 0 {
      AllShownAt(data, external, sets[1..], n - 1);
    } else if |sets| > 1 {
      AllShownAt(data, external, sets[1..], 0);
    } else {
      assert AllShown(data, external, sets[1..]) == [];
    }
  }

  /** Reading a written set brings its amulet back whole if and only if the amulet has at most two effects. */
  lemma AmuletWhole(data: Data, external: ExternalIds, armors: ArmorSet, tail: string)
    requires Printable(data, external, armors)
    ensures armors.Valid(data) && AnswerOf(SetText(data, external, armors) + tail).Got?
    ensures var effects := data.armors[armors.ids[AMULET]].effects;
            AnswerOf(SetText(data, external, armors) + tail).value.amulet.effects == ShownEffects(effects, external)
            <==> |effects| <= 2
  {
    hide AnswerOf, SetText, ShownPiece;
    var effects := data.armors[armors.ids[AMULET]].effects;
    ReadSet(data, external, armors, tail);
    ShownLength(effects, external);
    if |effects| > 2 {
      ShownLength(effects[..2], external);
    }
  }

  lemma {:induction false} ShownLength(effects: seq<Effect>, external: ExternalIds)
    ensures |ShownEffects(effects, external)| == |effects|
  {
    if effects != [] {
      ShownLength(effects[1..], external);
    }
  }
}
