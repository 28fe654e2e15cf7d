/**
  How written text splits into tokens: which strings and numbers the tokenizer reads as
  one token, and which numbers `next_int` reads back as they were.
 */
module TokenTheorems {
  import opened JSON
  import opened ProjectFiles
  import opened Wrappers

  // ---------------------------------------------------------------- spaces and punctuation

  lemma LexSpace(c: char, r: string)
    requires IsSpace(c)
    ensures Lex([c] + r) == Lex(r)
  {
    assert ([c] + r)[1..] == r;
    assert ([c] + r)[SpaceEnd([c] + r)..] == r[SpaceEnd(r)..];
  }

  /** A text that begins with a token of its own begins with it whatever its length. */
  lemma LexToken(token: string, r: string)
    requires token != "" && !IsSpace(token[0]) && token[0] != '\0' && TokenEnd(token + r) == |token|
    ensures Lex(token + r) == More(token, Lex(r))
  {
    hide TokenEnd;
    var text := token + r;
    assert text[0..] == text && text[..|token|] == token && text[|token|..] == r;
  }

  lemma LexPunctuation(c: char, r: string)
    requires IsPunctuation(c)
    ensures Lex([c] + r) == More([c], Lex(r))
  {
    hide Lex, StringEnd, NumberEnd, WordEnd, SpaceEnd;
    assert ([c] + r)[0] == c;
    LexToken([c], r);
  }

  // ---------------------------------------------------------------- strings

  /** No quote ends the string early and no backslash hides the quote that ends it. */
  predicate SafeString(s: string) {
    if s == "" then true
    else if s[0] == '"' then false
    else if s[0] == '\\' then |s| >= 2 && SafeString(s[2..])
    else SafeString(s[1..])
  }

  lemma {:induction false} StringEndsAtQuote(s: string, r: string)
    ensures StringEnd(s + "\"" + r) == |s| + 1 <==> SafeString(s)
    decreases |s|
  {
    var text := s + "\"" + r;
    if s == "" {
    } else if s[0] == '"' {
    } else if s[0] == '\\' {
      if |s| >= 2 {
        assert text[2..] == s[2..] + "\"" + r;
        StringEndsAtQuote(s[2..], r);
      } else {
        assert text[2..] == r;
      }
    } else {
      assert text[1..] == s[1..] + "\"" + r;
      StringEndsAtQuote(s[1..], r);
    }
  }

  /** A string between quotes is read as one token if and only if it is safe. */
  lemma QuotedReadsBack(s: string, r: string)
    ensures Lex(Quoted(s) + r) == More(Quoted(s), Lex(r)) <==> SafeString(s)
  {
    hide StringEnd, SafeString;
    StringEndsAtQuote(s, r);
    var text := Quoted(s) + r;
    assert text[0] == '"' && text[1..] == s + "\"" + r;
    assert |Quoted(s)| == |s| + 2;
    if SafeString(s) {
      LexToken(Quoted(s), r);
    } else {
      assert text[0..] == text;
      assert TokenEnd(text) != |Quoted(s)|;
    }
  }

  /** Names without quotes and backslashes are safe. */
  lemma {:induction false} PlainIsSafe(s: string)
    requires forall i :: 0 <= i < |s| ==> s[i] != '"' && s[i] != '\\'
    ensures SafeString(s)
  {
    if s != "" {
      PlainIsSafe(s[1..]);
    }
  }

  // ---------------------------------------------------------------- numbers and words

  predicate InNumber(c: char) {
    IsDigit(c) || c == '.' || c == 'e' || c == 'E'
  }

  /** Has no sign inside, one decimal point at most and one exponent at most. */
  predicate PlainNumber(s: string) {
    && s != "" && StartsNumber(s[0])
    && (forall i :: 1 <= i < |s| ==> InNumber(s[i]))
    && (forall i, j :: 1 <= i < j < |s| ==> !(s[i] == '.' && s[j] == '.'))
    && (forall i, j :: 1 <= i < j < |s| ==> !((s[i] == 'e' || s[i] == 'E') && (s[j] == 'e' || s[j] == 'E')))
  }

  predicate PlainTail(s: string, gotDot: bool, gotE: bool) {
    && (forall i :: 0 <= i < |s| ==> InNumber(s[i]))
    && (gotDot ==> forall i :: 0 <= i < |s| ==> s[i] != '.')
    && (gotE ==> forall i :: 0 <= i < |s| ==> s[i] != 'e' && s[i] != 'E')
    && (forall i, j :: 0 <= i < j < |s| ==> !(s[i] == '.' && s[j] == '.'))
    && (forall i, j :: 0 <= i < j < |s| ==> !((s[i] == 'e' || s[i] == 'E') && (s[j] == 'e' || s[j] == 'E')))
  }

  lemma PlainTailStep(s: string, gotDot: bool, gotE: bool)
    requires s != ""
    ensures PlainTail(s, gotDot, gotE) <==>
              && InNumber(s[0]) && !(gotDot && s[0] == '.') && !(gotE && (s[0] == 'e' || s[0] == 'E'))
              && PlainTail(s[1..], gotDot || s[0] == '.', gotE || s[0] == 'e' || s[0] == 'E')
  {
    if PlainTail(s, gotDot, gotE) {
    } else if && InNumber(s[0]) && !(gotDot && s[0] == '.') && !(gotE && (s[0] == 'e' || s[0] == 'E'))
              && PlainTail(s[1..], gotDot || s[0] == '.', gotE || s[0] == 'e' || s[0] == 'E') {
      assert forall i :: 1 <= i < |s| ==> s[i] == s[1..][i - 1];
    }
  }

  lemma {:induction false} NumberEndsWhere(s: string, r: string, gotDot: bool, gotE: bool)
    requires r == "" || !InNumber(r[0])
    ensures NumberEnd(s + r, gotDot, gotE) == |s| <==> PlainTail(s, gotDot, gotE)
    ensures NumberEnd(s + r, gotDot, gotE) <= |s|
  {
    hide PlainTail;
    if s == "" {
      assert s + r == r;
      assert PlainTail("", gotDot, gotE) by { EmptyTail(gotDot, gotE); }
    } else {
      assert (s + r)[1..] == s[1..] + r;
      PlainTailStep(s, gotDot, gotE);
      NumberEndsWhere(s[1..], r, gotDot || s[0] == '.', gotE || s[0] == 'e' || s[0] == 'E');
    }
  }

  lemma EmptyTail(gotDot: bool, gotE: bool)
    ensures PlainTail("", gotDot, gotE)
  {
  }

  lemma PlainNumberTail(s: string)
    requires s != "" && StartsNumber(s[0])
    ensures PlainNumber(s) <==> PlainTail(s[1..], false, false)
  {
    if PlainTail(s[1..], false, false) {
      assert forall i :: 1 <= i < |s| ==> s[i] == s[1..][i - 1];
    }
  }

  /** A number is read as one token if and only if it is plain; `1e+10`, say, is not. */
  lemma NumberReadsBack(s: string, r: string)
    requires s != "" && StartsNumber(s[0])
    requires r == "" || !InNumber(r[0])
    ensures Lex(s + r) == More(s, Lex(r)) <==> PlainNumber(s)
  {
    hide PlainNumber, PlainTail, NumberEnd;
    assert (s + r)[1..] == s[1..] + r;
    NumberEndsWhere(s[1..], r, false, false);
    PlainNumberTail(s);
    if PlainNumber(s) {
      LexToken(s, r);
    } else {
      assert (s + r)[0..] == s + r;
    }
  }

  /** What a sign after the exponent leads to: the number is cut off, and what is cut off is read as a number of its own. */
  lemma ExponentSignIsCutOff()
    ensures Lex("1e+10,") == More("1e", More("+10", More(",", End)))
    ensures !PlainNumber("1e+10")
  {
    hide Lex, SpaceEnd, TokenEnd, NumberEnd;
    assert "1e+10," == "1e" + "+10,";
    NumberReadsBack("1e", "+10,");
    assert "+10," == "+10" + ",";
    NumberReadsBack("+10", ",");
    assert "," == [','] + "";
    LexPunctuation(',', "");
    LexNothing();
    assert "1e+10"[2] == '+';
  }

  lemma LexNothing()
    ensures Lex("") == End
  {
  }

  lemma BooleanReadsBack(b: bool, r: string)
    requires r == "" || !IsLetter(r[0])
    ensures Lex(Boolean(b) + r) == More(Boolean(b), Lex(r))
  {
    var text := Boolean(b) + r;
    assert text[1..][1..] == text[2..] && text[2..][1..] == text[3..] && text[3..][1..] == text[4..];
    assert WordEnd(text[1..]) == 1 + WordEnd(text[2..]) == 2 + WordEnd(text[3..]) == 3 + WordEnd(text[4..]);
    if b {
      assert text[4..] == r;
    } else {
      assert text[4..][1..] == r;
    }
    LexToken(Boolean(b), r);
  }

  // ---------------------------------------------------------------- integers

  lemma {:induction false} DigitsArePlain(n: int)
    ensures PlainNumber(Decimal(n))
  {
    if n < 0 {
      assert forall i :: 1 <= i < |Decimal(n)| ==> Decimal(n)[i] == Digits(-n)[i - 1];
    }
  }

  lemma {:induction false} AllDigits(s: string)
    requires forall i :: 0 <= i < |s| ==> IsDigit(s[i])
    ensures DigitsEnd(s, 10) == |s| && CString(s) == s
  {
    if s != "" {
      AllDigits(s[1..]);
      assert s == [s[0]] + s[1..];
    }
  }

  lemma {:induction false} ValueOfDigits(n: nat)
    ensures ValueOf(Digits(n), 10) == n
    ensures n > 0 ==> Digits(n)[0] != '0'
  {
    if n >= 10 {
      ValueOfDigits(n / 10);
      assert Digits(n)[..|Digits(n)| - 1] == Digits(n / 10);
    } else {
      assert Digits(n)[..0] == "";
    }
  }

  lemma MagnitudeOfDigits(n: nat)
    ensures Magnitude(Digits(n)) == n
  {
    ValueOfDigits(n);
    AllDigits(Digits(n));
    if n == 0 {
      var zero := Digits(0);
      assert zero == "0";
      assert zero[1..] == "" && zero[..0] == "";
    }
  }

  lemma BlanksAndSigns()
    ensures CString(" \t+7") == " \t+7" && BlankEnd(" \t+7") == 2 && " \t+7"[2..] == "+7" && "+7"[1..] == "7"
    ensures CString("-0XA") == "-0XA" && BlankEnd("-0XA") == 0 && "-0XA"[0..] == "-0XA" && "-0XA"[1..] == "0XA"
  {
    assert CString("\t+7") == "\t+7" && BlankEnd("\t+7") == 1;
  }

  lemma Magnitudes()
    ensures Magnitude("7") == 7 && Magnitude("0XA") == 10 && Magnitude("017") == 15 && Magnitude("0x1f") == 31
    ensures Magnitude("08") == Magnitude("0x") == Magnitude("7 ") == Magnitude("") == -1
  {
    assert "0XA"[2..] == "A" && "0x1f"[2..] == "1f";
    assert ValueOf("1f"[..1], 16) == 1;
    assert ValueOf("017"[..1], 8) == 0 && ValueOf("017"[..2], 8) == 1;
  }

  /** Hexadecimal and octal numbers, blanks and signs are understood as `strtol` does in base 0, and what is left over is not. */
  lemma OtherBases(error: Error)
    ensures StringToInt("-0XA", error) == Success(-10) && StringToInt("017", error) == Success(15) && StringToInt(" \t+7", error) == Success(7)
    ensures StringToInt("08", error) == StringToInt("7 ", error) == StringToInt("", error) == Failure(error)
  {
    hide Magnitude, BlankEnd, CString;
    Magnitudes();
    BlanksAndSigns();
    NoBlanks();
  }

  lemma NoBlanks()
    ensures CString("017") == "017" && BlankEnd("017") == 0 && "017"[0..] == "017"
    ensures CString("08") == "08" && BlankEnd("08") == 0 && "08"[0..] == "08"
    ensures CString("7 ") == "7 " && BlankEnd("7 ") == 0 && "7 "[0..] == "7 "
    ensures CString("") == "" && BlankEnd("") == 0 && ""[0..] == ""
  {
  }

  /** `strtol` reads a decimal number back, as far as 64 bits and then 32 bits can hold it. */
  lemma IntReadsBack(n: int, error: Error)
    ensures StringToInt(Decimal(n), error) == Success(ToInt(Saturated(n)))
  {
    hide Magnitude, Digits, ToInt;
    var s := Decimal(n);
    if n < 0 {
      AllDigits(Digits(-n));
      MagnitudeOfDigits(-n);
      assert s[1..] == Digits(-n);
      assert CString(s) == s;
      assert s[0..] == s;
    } else {
      AllDigits(Digits(n));
      MagnitudeOfDigits(n);
      assert s[0..] == s;
    }
  }

  /** An `int` survives. */
  lemma IdReadsBack(id: int, error: Error)
    requires -0x8000_0000 <= id < 0x8000_0000
    ensures StringToInt(Decimal(id), error) == Success(id)
  {
    IntReadsBack(id, error);
  }

  /** Which 64-bit counts of frames survive being read as an `int`: those below 2^31, and the largest of all. */
  predicate SmallCount(frames: int) {
    0 <= frames < 0x8000_0000 || frames == UNSIGNED - 1
  }

  lemma FramesReadBack(frames: int, error: Error)
    requires 0 <= frames < UNSIGNED
    ensures StringToInt(Decimal(frames), error).Success?
    ensures ToUnsigned(StringToInt(Decimal(frames), error).value) == frames <==> SmallCount(frames)
  {
    hide StringToInt, Decimal;
    IntReadsBack(frames, error);
  }
}
