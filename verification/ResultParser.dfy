/** The C# wrapper's reader of search results. */
module ResultParsers {
  import opened Tokens

  datatype Piece = Piece(id: int, jewels: seq<int>)

  datatype SkillEntry = SkillEntry(skill: int, points: int)

  datatype Amulet = Amulet(effects: seq<SkillEntry>, jewels: seq<int>)

  /** A result as the C# side sees it. */
  datatype Answer = Answer(gear: Piece, head: Piece, body: Piece, arms: Piece, waist: Piece, legs: Piece,
                           amulet: Amulet, weaponSlots: int)

  const NO_PIECE := Piece(0, [])
  const NO_ANSWER := Answer(NO_PIECE, NO_PIECE, NO_PIECE, NO_PIECE, NO_PIECE, NO_PIECE, Amulet([], []), 0)

  datatype Instruction = Gear | Head | Body | Arms | Waist | Legs | AmuletPart | Complete | Invalid

  function Lower(c: char): char {
    if 'A' <= c <= 'Z' then (c as int + 32) as char else c
  }

  function ToLower(s: string): string {
    if s == "" then "" else [Lower(s[0])] + ToLower(s[1..])
  }

  const CAPITALS := "ABCDEFGHIJKLMNOPQRSTUVWXYZ"
  const SMALL := "abcdefghijklmnopqrstuvwxyz"

  /** Every capital becomes its small letter, and nothing else changes. */
  lemma LowerIs(c: char, n: nat)
    requires n < 26
    ensures Lower(CAPITALS[n]) == SMALL[n] && (c !in CAPITALS ==> Lower(c) == c)
  {
    if 'A' <= c <= 'Z' {
      assert CAPITALS[c as int - 'A' as int] == c;
    }
  }

  function InstructionOf(token: Token): Instruction {
    if token.name != Keyword then (if token.name == CloseParenthesis then Complete else Invalid)
    else
      var word := ToLower(token.value);
      if word == "gear" then Gear
      else if word == "head" then Head
      else if word == "body" then Body
      else if word == "arms" then Arms
      else if word == "waist" then Waist
      else if word == "legs" then Legs
      else if word == "amulet" then AmuletPart
      else Invalid
  }

  // ---------- What is read ----------

  /** The last step of a piece: the closing parenthesis. */
  function Closed<T>(value: T, s: string): (r: Read<T>)
    ensures Shrinks(r, s)
  {
    match Expect(s, CloseParenthesis)
    case Got(found, rest) => if found then Got(value, rest) else Refused(rest)
    case Refused(rest) => Refused(rest)
    case Threw => Threw
  }

  function PieceOf(s: string): (r: Read<Piece>)
    ensures Shrinks(r, s)
  {
    match Expect(s, OpenParenthesis)
    case Threw => Threw
    case Refused(rest) => Refused(rest)
    case Got(_, s1) =>
      match ExpectNumber(s1)
      case Threw => Threw
      case Refused(rest) => Refused(rest)
      case Got(id, s2) =>
        match IntegerList(s2)
        case Threw => Threw
        case Refused(rest) => Refused(rest)
        case Got(jewels, s3) => Closed(Piece(id, jewels), s3)
  }

  /** The first two pairs of numbers. */
  function FirstEffects(ns: seq<int>): seq<SkillEntry> {
    (if |ns| >= 2 then [SkillEntry(ns[0], ns[1])] else []) + (if |ns| >= 4 then [SkillEntry(ns[2], ns[3])] else [])
  }

  function AmuletOf(s: string): (r: Read<Amulet>)
    ensures Shrinks(r, s)
  {
    match Expect(s, OpenParenthesis)
    case Threw => Threw
    case Refused(rest) => Refused(rest)
    case Got(_, s1) =>
      match IntegerList(s1)
      case Threw => Threw
      case Refused(rest) => Refused(rest)
      case Got(ns, s2) =>
        match IntegerList(s2)
        case Threw => Threw
        case Refused(rest) => Refused(rest)
        case Got(jewels, s3) => Closed(Amulet(FirstEffects(ns), jewels), s3)
  }

  /** The answer with one piece filled in. */
  function WithPiece(answer: Answer, instruction: Instruction, piece: Piece): Answer {
    match instruction
    case Gear => answer.(gear := piece, weaponSlots := piece.id)
    case Head => answer.(head := piece)
    case Body => answer.(body := piece)
    case Arms => answer.(arms := piece)
    case Waist => answer.(waist := piece)
    case Legs => answer.(legs := piece)
    case _ => answer
  }

  /** One part after its keyword. */
  function PartOf(s: string, instruction: Instruction, answer: Answer): (r: Read<Answer>)
    ensures Shrinks(r, s)
  {
    if instruction == AmuletPart then
      match AmuletOf(s)
      case Threw => Threw
      case Refused(rest) => Refused(rest)
      case Got(amulet, rest) => Got(answer.(amulet := amulet), rest)
    else if instruction == Invalid || instruction == Complete then Refused(s)
    else
      match PieceOf(s)
      case Threw => Threw
      case Refused(rest) => Refused(rest)
      case Got(piece, rest) => Got(WithPiece(answer, instruction, piece), rest)
  }

  /** Parts up to the closing parenthesis. */
  function PartsOf(s: string, answer: Answer): (r: Read<Answer>)
    ensures Shrinks(r, s)
    decreases |s|
  {
    match NextToken(s)
    case Thrown => Threw
    case Scan(more, token, s1) =>
      if InstructionOf(token) == Complete then Got(answer, s1)
      else if InstructionOf(token) == Invalid then Refused(s1)
      else
        match PartOf(s1, InstructionOf(token), answer)
        case Threw => Threw
        case Refused(rest) => Refused(rest)
        case Got(next, s2) => if s2 == "" then Refused(s2) else PartsOf(s2, next)
  }

  function AnswerOf(s: string): (r: Read<Answer>)
    ensures Shrinks(r, s) && (r.Got? ==> |r.rest| < |s|)
  {
    match Expect(s, OpenParenthesis)
    case Threw => Threw
    case Refused(rest) => Refused(rest)
    case Got(found, rest) => if found then PartsOf(rest, NO_ANSWER) else Refused(rest)
  }

  /** Answers up to the first refusal. */
  function AnswersOf(s: string): Read<seq<Answer>>
    decreases |s|
  {
    match AnswerOf(s)
    case Threw => Threw
    case Refused(rest) => Got([], rest)
    case Got(answer, rest) =>
      match AnswersOf(rest)
      case Threw => Threw
      case Refused(s1) => Refused(s1)
      case Got(answers, s1) => Got([answer] + answers, s1)
  }

  // ---------- The methods that read it ----------

  /** What a call of the tokenizer leaves behind, against what is to be read. */
  predicate Matches<T(==)>(r: Read<T>, outcome: Outcome, value: T, rest: string) {
    match r
    case Threw => outcome == Exception
    case Refused(s) => outcome == No && rest == s
    case Got(v, s) => outcome == Yes && value == v && rest == s
  }

  method ParsePiece(tokenizer: Tokenizer) returns (outcome: Outcome, piece: Piece)
    modifies tokenizer
    ensures Matches(PieceOf(old(tokenizer.Rest())), outcome, piece, tokenizer.Rest())
  {
    hide Expect, ExpectNumber, IntegerList;
    piece := NO_PIECE;
    var ignored := tokenizer.ExpectToken(OpenParenthesis);
    if ignored == Exception {
      return Exception, piece;
    }
    var id, jewels;
    outcome, id := tokenizer.ExpectInteger();
    piece := piece.(id := id);
    if outcome != Yes {
      return;
    }
    outcome, jewels := tokenizer.ExpectIntegerList();
    piece := piece.(jewels := jewels);
    if outcome != Yes {
      return;
    }
    outcome := tokenizer.ExpectToken(CloseParenthesis);
  }

  method ParseAmulet(tokenizer: Tokenizer) returns (outcome: Outcome, amulet: Amulet)
    modifies tokenizer
    ensures Matches(AmuletOf(old(tokenizer.Rest())), outcome, amulet, tokenizer.Rest())
  {
    hide Expect, IntegerList;
    amulet := Amulet([], []);
    var ignored := tokenizer.ExpectToken(OpenParenthesis);
    if ignored == Exception {
      return Exception, amulet;
    }
    var ns, jewels;
    outcome, ns := tokenizer.ExpectIntegerList();
    if outcome != Yes {
      return;
    }
    if |ns| >= 2 {
      amulet := amulet.(effects := amulet.effects + [SkillEntry(ns[0], ns[1])]);
    }
    if |ns| >= 4 {
      amulet := amulet.(effects := amulet.effects + [SkillEntry(ns[2], ns[3])]);
    }
    assert amulet.effects == FirstEffects(ns);
    outcome, jewels := tokenizer.ExpectIntegerList();
    amulet := amulet.(jewels := jewels);
    if outcome != Yes {
      return;
    }
    outcome := tokenizer.ExpectToken(CloseParenthesis);
  }

  method ReadInstruction(tokenizer: Tokenizer) returns (outcome: Outcome, instruction: Instruction)
    modifies tokenizer
    ensures match NextToken(old(tokenizer.Rest()))
            case Thrown => outcome == Exception
            case Scan(_, token, rest) => outcome == Yes && instruction == InstructionOf(token) && tokenizer.Rest() == rest
  {
    hide NextToken, InstructionOf;
    var read, token := tokenizer.Next();
    instruction := Invalid;
    if read == Exception {
      return Exception, instruction;
    }
    outcome, instruction := Yes, InstructionOf(token);
  }

  method ParsePart(tokenizer: Tokenizer, instruction: Instruction, before: Answer) returns (outcome: Outcome, answer: Answer)
    modifies tokenizer
    ensures Matches(PartOf(old(tokenizer.Rest()), instruction, before), outcome, answer, tokenizer.Rest())
  {
    hide PieceOf, AmuletOf;
    answer := before;
    if instruction == AmuletPart {
      var amulet;
      outcome, amulet := ParseAmulet(tokenizer);
      answer := answer.(amulet := amulet);
    } else if instruction == Invalid || instruction == Complete {
      outcome := No;
    } else {
      var piece;
      outcome, piece := ParsePiece(tokenizer);
      answer := WithPiece(before, instruction, piece);
    }
  }

  method ParseAnswer(tokenizer: Tokenizer) returns (outcome: Outcome, answer: Answer)
    modifies tokenizer
    ensures Matches(AnswerOf(old(tokenizer.Rest())), outcome, answer, tokenizer.Rest())
  {
    hide NextToken, PartOf, InstructionOf, Expect;
    answer := NO_ANSWER;
    outcome := tokenizer.ExpectToken(OpenParenthesis);
    if outcome != Yes {
      return;
    }
    ghost var goal := PartsOf(tokenizer.Rest(), answer);
    var more := true;
    while more
      invariant more ==> goal == PartsOf(tokenizer.Rest(), answer)
      invariant !more ==> goal == Refused("") && tokenizer.Rest() == ""
      decreases more, |tokenizer.Rest()|
    {
      var instruction;
      InstructionConsumes(tokenizer.Rest());
      outcome, instruction := ReadInstruction(tokenizer);
      if outcome == Exception {
        return;
      }
      if instruction == Complete {
        return Yes, answer;
      }
      if instruction == Invalid {
        return No, answer;
      }
      outcome, answer := ParsePart(tokenizer, instruction, answer);
      if outcome != Yes {
        return;
      }
      more := !tokenizer.Empty();
    }
    outcome := No;
  }

  lemma InstructionConsumes(s: string)
    ensures match NextToken(s)
            case Thrown => true
            case Scan(_, token, rest) =>
              InstructionOf(token) == Invalid || InstructionOf(token) == Complete || |rest| < |s|
  {
  }

  /** The wrapper's loop over the text that a search returns. */
  method ReadAnswers(text: string) returns (outcome: Outcome, answers: seq<Answer>)
    ensures match AnswersOf(text)
            case Threw => outcome == Exception
            case Refused(_) => false
            case Got(all, _) => outcome == Yes && answers == all
  {
    hide AnswerOf;
    AnswersNotRefused(text);
    var tokenizer := new Tokenizer(text);
    answers := [];
    ghost var goal := AnswersOf(text);
    var answer;
    ghost var s := tokenizer.Rest();
    ContinuedNone(AnswersOf(s));
    outcome, answer := ParseAnswer(tokenizer);
    while outcome == Yes
      invariant Matches(AnswerOf(s), outcome, answer, tokenizer.Rest())
      invariant goal == Continued(answers, AnswersOf(s))
      decreases |s|
    {
      answers := answers + [answer];
      AnswersNotRefused(tokenizer.Rest());
      ContinuedOne(answers[..|answers| - 1], answer, AnswersOf(tokenizer.Rest()));
      s := tokenizer.Rest();
      outcome, answer := ParseAnswer(tokenizer);
    }
    if outcome == No {
      assert answers + [] == answers;
      outcome := Yes;
    }
  }

  lemma ContinuedNone(r: Read<seq<Answer>>)
    ensures Continued([], r) == r
  {
    if r.Got? {
      assert [] + r.value == r.value;
    }
  }

  lemma ContinuedOne(answers: seq<Answer>, answer: Answer, r: Read<seq<Answer>>)
    ensures Continued(answers, Continued([answer], r)) == Continued(answers + [answer], r)
  {
    if r.Got? {
      assert answers + ([answer] + r.value) == answers + [answer] + r.value;
    }
  }

  function Continued(first: seq<Answer>, r: Read<seq<Answer>>): Read<seq<Answer>> {
    match r
    case Threw => Threw
    case Refused(s) => Refused(s)
    case Got(answers, s) => Got(first + answers, s)
  }

  lemma {:induction false} AnswersNotRefused(s: string)
    ensures !AnswersOf(s).Refused?
    decreases |s|
  {
    hide AnswerOf;
    match AnswerOf(s) {
      case Threw =>
      case Refused(_) =>
      case Got(_, rest) => AnswersNotRefused(rest);
    }
  }
}
