/** The tokens of the C# wrapper's parser. */
module Tokens {
  import opened Numerals

  datatype TokenName = OpenParenthesis | CloseParenthesis | Keyword | String | TrueValue | Number | Nil | InvalidToken

  datatype Token = Token(name: TokenName, value: string)

  /** A token that nothing has been read into. */
  const NO_TOKEN := Token(OpenParenthesis, "")

  /** One step: whether there was a token, the token, and the text after it; or an exception. */
  datatype Scan = Scan(more: bool, token: Token, rest: string) | Thrown

  function SkipSpaces(s: string): (r: string)
    ensures |r| <= |s| && (r != "" ==> !IsWhiteSpace(r[0]))
  {
    if s != "" && IsWhiteSpace(s[0]) then SkipSpaces(s[1..]) else s
  }

  function WordLength(s: string): (n: nat)
    ensures n <= |s|
  {
    if s == "" || IsWhiteSpace(s[0]) then 0 else 1 + WordLength(s[1..])
  }

  function DigitLength(s: string): (n: nat)
    ensures n <= |s|
  {
    if s == "" || !IsDigit(s[0]) then 0 else 1 + DigitLength(s[1..])
  }

  /** After an opening quote; running off the end of the text is an exception. */
  function StringFrom(s: string, escape: bool, value: string): (scan: Scan)
    ensures scan.Scan? ==> scan.more && scan.token.name == String && |scan.rest| < |s|
  {
    if s == "" then Thrown
    else if s[0] == '"' && !escape then Scan(true, Token(String, value), s[1..])
    else if s[0] == '\\' then StringFrom(s[1..], true, value)
    else StringFrom(s[1..], false, value + [if s[0] == '"' then '|' else s[0]])
  }

  function Drop(s: string, n: nat): (r: string)
    ensures |r| <= |s| && (n > 0 && s != "" ==> |r| < |s|)
  {
    if n <= |s| then s[n..] else ""
  }

  /** The next token; a character that starts none is not consumed. */
  function NextToken(s: string): (scan: Scan)
    ensures scan.Scan? ==> |scan.rest| <= |s|
    ensures scan.Scan? && scan.more && scan.token.name != InvalidToken ==> |scan.rest| < |s|
    ensures scan.Scan? && !scan.more ==> scan.token == NO_TOKEN
  {
    var t := SkipSpaces(s);
    if t == "" then Scan(false, NO_TOKEN, "")
    else if t[0] == '(' then Scan(true, Token(OpenParenthesis, ""), t[1..])
    else if t[0] == ')' then Scan(true, Token(CloseParenthesis, ""), t[1..])
    else if t[0] == ':' then
      var n := WordLength(t[1..]);
      Scan(true, Token(Keyword, t[1..][..n]), t[1..][n..])
    else if t[0] == '"' then StringFrom(t[1..], false, "")
    else if t[0] == 'T' then Scan(true, Token(TrueValue, ""), t[1..])
    else if IsDigit(t[0]) || t[0] == '-' then
      var n := 1 + DigitLength(t[1..]);
      Scan(true, Token(Number, t[..n]), t[n..])
    else if t[0] == 'N' then Scan(true, Token(Nil, ""), Drop(t, 3))
    else Scan(true, Token(InvalidToken, ""), t)
  }

  /** A value read from the text, a refusal, or an exception. */
  datatype Read<+T> = Got(value: T, rest: string) | Refused(rest: string) | Threw

  predicate Shrinks<T>(r: Read<T>, s: string) {
    (r.Got? ==> |r.rest| <= |s|) && (r.Refused? ==> |r.rest| <= |s|)
  }

  function Expect(s: string, name: TokenName): (r: Read<bool>)
    ensures Shrinks(r, s) && !r.Refused?
    ensures r.Got? && r.value ==> |r.rest| < |s| || name == InvalidToken
  {
    match NextToken(s)
    case Thrown => Threw
    case Scan(more, token, rest) => Got(more && token.name == name, rest)
  }

  function ExpectNumber(s: string): (r: Read<int>)
    ensures Shrinks(r, s)
  {
    match NextToken(s)
    case Thrown => Threw
    case Scan(more, token, rest) =>
      if more && token.name == Number then
        match ToInt32(token.value)
        case None => Threw
        case Some(n) => Got(n, rest)
      else Refused(rest)
  }

  /** Numbers up to a closing parenthesis, after those in `read`. */
  function Integers(s: string, read: seq<int>): (r: Read<seq<int>>)
    ensures Shrinks(r, s)
    decreases |s|
  {
    match NextToken(s)
    case Thrown => Threw
    case Scan(more, token, rest) =>
      if !more then Refused(rest)
      else if token.name == CloseParenthesis then Got(read, rest)
      else if token.name != Number then Refused(rest)
      else
        match ToInt32(token.value)
        case None => Threw
        case Some(n) => Integers(rest, read + [n])
  }

  /** The token before the list is not looked at. */
  function IntegerList(s: string): (r: Read<seq<int>>)
    ensures Shrinks(r, s)
  {
    match Expect(s, OpenParenthesis)
    case Threw => Threw
    case Refused(rest) => Refused(rest)
    case Got(_, rest) => Integers(rest, [])
  }

  lemma NextChar(s: string, n: nat)
    requires n < |s|
    ensures s[..n + 1] == s[..n] + [s[n]] && s[n..][0] == s[n] && s[n..][1..] == s[n + 1..]
  {
  }

  lemma MoreOfWord(s: string)
    requires s != "" && !IsWhiteSpace(s[0])
    ensures WordLength(s) == 1 + WordLength(s[1..])
  {
  }

  lemma EndOfWord(s: string)
    requires s == "" || IsWhiteSpace(s[0])
    ensures WordLength(s) == 0
  {
  }

  lemma MoreOfNumber(s: string)
    requires s != "" && IsDigit(s[0])
    ensures DigitLength(s) == 1 + DigitLength(s[1..])
  {
  }

  lemma EndOfNumber(s: string)
    requires s == "" || !IsDigit(s[0])
    ensures DigitLength(s) == 0
  {
  }

  // ---------- The tokenizer ----------

  /** How a call ends: with its result, or in an exception. */
  datatype Outcome = Yes | No | Exception

  class Tokenizer {
    const text: string
    var pos: nat

    function Rest(): string
      reads this
    {
      if pos <= |text| then text[pos..] else ""
    }

    constructor (input: string)
      ensures text == input && Rest() == input
    {
      text := input;
      pos := 0;
    }

    predicate Empty()
      reads this
      ensures Empty() <==> Rest() == ""
    {
      pos >= |text|
    }

    method Next() returns (outcome: Outcome, token: Token)
      modifies this
      ensures match NextToken(old(Rest()))
              case Thrown => outcome == Exception
              case Scan(more, token', rest) =>
                token == token' && Rest() == rest && outcome == if more then Yes else No
    {
      hide StringFrom, WordLength, DigitLength;
      token := NO_TOKEN;
      while pos < |text| && IsWhiteSpace(text[pos])
        invariant SkipSpaces(Rest()) == SkipSpaces(old(Rest()))
      {
        assert Rest()[1..] == text[pos + 1..];
        pos := pos + 1;
      }
      if pos >= |text| {
        return No, token;
      }
      assert Rest()[0] == text[pos] && Rest()[1..] == text[pos + 1..];
      outcome := Yes;
      if '(' == text[pos] {
        token := Token(OpenParenthesis, "");
        pos := pos + 1;
      } else if ')' == text[pos] {
        token := Token(CloseParenthesis, "");
        pos := pos + 1;
      } else if ':' == text[pos] {
        token := ReadKeyword();
      } else if '"' == text[pos] {
        outcome, token := ReadString();
      } else if 'T' == text[pos] {
        token := Token(TrueValue, "");
        pos := pos + 1;
      } else if IsDigit(text[pos]) || '-' == text[pos] {
        token := ReadNumber();
      } else if 'N' == text[pos] {
        token := Token(Nil, "");
        pos := pos + 3;
      } else {
        token := Token(InvalidToken, "");
      }
    }

    method ReadKeyword() returns (token: Token)
      requires pos < |text| && text[pos] == ':'
      modifies this
      ensures var n := WordLength(old(Rest())[1..]);
              token == Token(Keyword, old(Rest())[1..][..n]) && Rest() == old(Rest())[1..][n..]
    {
      hide WordLength;
      ghost var all := Rest()[1..];
      var value := "";
      pos := pos + 1;
      assert Rest() == all;
      while pos < |text| && !IsWhiteSpace(text[pos])
        invariant pos <= |text| && |value| + WordLength(Rest()) == WordLength(all)
        invariant |value| <= |all| && value == all[..|value|] && Rest() == all[|value|..]
        decreases |text| - pos
      {
        NextChar(text, pos);
        NextChar(all, |value|);
        MoreOfWord(Rest());
        value := value + [text[pos]];
        pos := pos + 1;
      }
      EndOfWord(Rest());
      token := Token(Keyword, value);
    }

    method ReadNumber() returns (token: Token)
      requires pos < |text|
      modifies this
      ensures var n := 1 + DigitLength(old(Rest())[1..]);
              token == Token(Number, old(Rest())[..n]) && Rest() == old(Rest())[n..]
    {
      hide DigitLength;
      ghost var all := Rest();
      var value := [text[pos]];
      pos := pos + 1;
      assert Rest() == all[1..];
      while pos < |text| && IsDigit(text[pos])
        invariant pos <= |text| && |value| + DigitLength(Rest()) == 1 + DigitLength(all[1..])
        invariant |value| <= |all| && value == all[..|value|] && Rest() == all[|value|..]
        decreases |text| - pos
      {
        NextChar(text, pos);
        NextChar(all, |value|);
        MoreOfNumber(Rest());
        value := value + [text[pos]];
        pos := pos + 1;
      }
      EndOfNumber(Rest());
      token := Token(Number, value);
    }

    method ReadString() returns (outcome: Outcome, token: Token)
      requires pos < |text| && text[pos] == '"'
      modifies this
      ensures match StringFrom(old(Rest())[1..], false, "")
              case Thrown => outcome == Exception
              case Scan(more, token', rest) => outcome == Yes && token == token' && Rest() == rest
    {
      ghost var goal := StringFrom(Rest()[1..], false, "");
      var value, escape := "", false;
      token := NO_TOKEN;
      assert Rest()[1..] == text[pos + 1..];
      while pos < |text|
        invariant pos < |text| && goal == StringFrom(text[pos + 1..], escape, value)
        decreases |text| - pos
      {
        pos := pos + 1;
        if pos >= |text| {
          return Exception, token;
        }
        assert text[pos..][1..] == text[pos + 1..];
        if '"' == text[pos] && !escape {
          break;
        }
        if '\\' == text[pos] {
          escape := true;
        } else {
          escape := false;
          value := value + [if '"' == text[pos] then '|' else text[pos]];
        }
      }
      pos := pos + 1;
      outcome, token := Yes, Token(String, value);
    }

    method ExpectToken(name: TokenName) returns (outcome: Outcome)
      modifies this
      ensures match Expect(old(Rest()), name)
              case Threw => outcome == Exception
              case Refused(_) => false
              case Got(found, rest) => Rest() == rest && outcome == if found then Yes else No
    {
      hide NextToken;
      var token;
      outcome, token := Next();
      if outcome == Yes && token.name != name {
        outcome := No;
      }
    }

    method ExpectInteger() returns (outcome: Outcome, result: int)
      modifies this
      ensures match ExpectNumber(old(Rest()))
              case Threw => outcome == Exception
              case Refused(rest) => outcome == No && result == 0 && Rest() == rest
              case Got(n, rest) => outcome == Yes && result == n && Rest() == rest
    {
      hide NextToken, ToInt32;
      result := 0;
      var token;
      outcome, token := Next();
      if outcome == Yes {
        if token.name != Number {
          return No, 0;
        }
        match ToInt32(token.value) {
          case None => outcome := Exception;
          case Some(n) => result := n;
        }
      }
    }

    method ExpectIntegerList() returns (outcome: Outcome, result: seq<int>)
      modifies this
      ensures match IntegerList(old(Rest()))
              case Threw => outcome == Exception
              case Refused(rest) => outcome == No && Rest() == rest
              case Got(ns, rest) => outcome == Yes && result == ns && Rest() == rest
    {
      hide NextToken, ToInt32, Expect;
      result := [];
      var ignored := ExpectToken(OpenParenthesis);
      if ignored == Exception {
        return Exception, result;
      }
      ghost var goal := Integers(Rest(), []);
      var token;
      outcome, token := Next();
      while outcome == Yes
        invariant outcome != Exception ==> TokenAfter(goal, outcome == Yes, token, Rest(), result)
        invariant outcome == Exception ==> goal.Threw?
        decreases outcome == Yes, |Rest()| + if token.name == Number then 1 else 0
      {
        if token.name == CloseParenthesis {
          return Yes, result;
        } else if token.name != Number {
          return No, result;
        }
        match ToInt32(token.value) {
          case None => return Exception, result;
          case Some(n) => result := result + [n];
        }
        outcome, token := Next();
      }
    }
  }

  /** `goal` is what reading goes on to, when `token` is what has just been read. */
  predicate TokenAfter(goal: Read<seq<int>>, more: bool, token: Token, rest: string, read: seq<int>) {
    goal ==
      if !more then Refused(rest)
      else if token.name == CloseParenthesis then Got(read, rest)
      else if token.name != Number then Refused(rest)
      else
        match ToInt32(token.value)
        case None => Threw
        case Some(n) => Integers(rest, read + [n])
  }
}
