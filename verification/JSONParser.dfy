/**
  The parser erases what it has read from the front of its text.  To its callers it is
  the stream of the tokens that are left.
 */
module JSONParsers {
  import opened JSON
  import opened Wrappers

  /** `r` is what `reading` says was read, and `now` is what it says is left. */
  predicate Agrees<T(==)>(r: Result<T, Error>, now: Stream, reading: Reading<T>) {
    if r.Success? then reading == Success((r.value, now)) else reading == Failure(r.error)
  }

  class JSONParser {
    var text: string
    var peekedToken: string

    constructor (textIn: string)
      ensures Tokens() == Lex(textIn)
    {
      text := textIn;
      peekedToken := "";
    }

    /** The tokens that are left. */
    ghost function Tokens(): Stream
      reads this
    {
      if peekedToken != "" then More(peekedToken, Lex(text)) else Lex(text)
    }

    /** Finds where the string token that opens at `start` ends. */
    method ScanString(start: nat) returns (end: int)
      requires start < |text|
      ensures end == (var n := StringEnd(text[start + 1..]); if n == -1 then -1 else start + 1 + n)
    {
      var p := start + 1;
      var complete := false;
      while p < |text|
        invariant start < p
        invariant p <= |text| ==> StringEnd(text[start + 1..]) == var n := StringEnd(text[p..]); if n == -1 then -1 else p - (start + 1) + n
        invariant p > |text| ==> StringEnd(text[start + 1..]) == -1
      {
        var c := text[p];
        if c == '"' {
          complete := true;
          p := p + 1;
          break;
        } else if c == '\\' {
          assert p + 2 <= |text| ==> text[p..][2..] == text[p + 2..];
          p := p + 2;
        } else {
          assert text[p..][1..] == text[p + 1..];
          p := p + 1;
        }
      }
      end := if complete then p else -1;
    }

    method ScanNumber(start: nat) returns (p: nat)
      requires start < |text|
      ensures p == start + 1 + NumberEnd(text[start + 1..], false, false)
    {
      p := start + 1;
      var gotDot, gotE := false, false;
      while p < |text|
        invariant start < p <= |text|
        invariant start + 1 + NumberEnd(text[start + 1..], false, false) == p + NumberEnd(text[p..], gotDot, gotE)
      {
        var c := text[p];
        assert text[p..][1..] == text[p + 1..];
        if c == '.' {
          if gotDot { break; }
          gotDot := true;
        } else if c == 'e' || c == 'E' {
          if gotE { break; }
          gotE := true;
        } else if !IsDigit(c) {
          break;
        }
        p := p + 1;
      }
    }

    method ScanWord(start: nat) returns (p: nat)
      requires start < |text|
      ensures p == start + 1 + WordEnd(text[start + 1..])
    {
      p := start + 1;
      while p < |text| && IsLetter(text[p])
        invariant start < p <= |text|
        invariant start + 1 + WordEnd(text[start + 1..]) == p + WordEnd(text[p..])
      {
        assert text[p..][1..] == text[p + 1..];
        p := p + 1;
      }
    }

    method SkipSpace() returns (p: nat)
      ensures p == SpaceEnd(text)
    {
      p := 0;
      while p < |text| && IsSpace(text[p])
        invariant p <= |text| && SpaceEnd(text) == p + SpaceEnd(text[p..])
      {
        assert text[p..][1..] == text[p + 1..];
        p := p + 1;
      }
    }

    method NextToken() returns (r: Result<string, Error>)
      modifies this
      ensures Agrees(r, Tokens(), Token(old(Tokens())))
      ensures peekedToken == "" && (r.Failure? ==> Tokens() == old(Tokens()))
    {
      hide SpaceEnd, StringEnd, NumberEnd, WordEnd;
      if peekedToken != "" {
        var token := peekedToken;
        peekedToken := "";
        return Success(token);
      }
      var start := SkipSpace();
      if start == |text| || text[start] == '\0' {
        text := "";
        return Success("");
      }
      var end: int := start + 1;
      var c := text[start];
      if c == '"' {
        end := ScanString(start);
        if end == -1 {
          return Failure(UnterminatedString);
        }
      } else if IsPunctuation(c) {
      } else if StartsNumber(c) {
        end := ScanNumber(start);
      } else {
        end := ScanWord(start);
      }
      ghost var rest := text[start..];
      assert rest[1..] == text[start + 1..];
      assert rest[..end - start] == text[start..end] && rest[end - start..] == text[end..];
      var token := text[start..end];
      text := text[end..];
      return Success(token);
    }

    method PeekToken() returns (r: Result<string, Error>)
      modifies this
      ensures Tokens() == old(Tokens())
      ensures match Token(Tokens()) case Success(t) => r == Success(t.0) case Failure(e) => r == Failure(e)
      ensures r.Success? ==> peekedToken == r.value
    {
      if peekedToken == "" {
        peekedToken :- NextToken();
      }
      return Success(peekedToken);
    }

    method StartObject() returns (r: Result<(), Error>)
      modifies this
      ensures Agrees(r, Tokens(), JSON.StartObject(old(Tokens())))
    {
      var token :- NextToken();
      return if token != "{" then Failure(ObjectExpected) else Success(());
    }

    method StartArray() returns (r: Result<(), Error>)
      modifies this
      ensures Agrees(r, Tokens(), JSON.StartArray(old(Tokens())))
    {
      var token :- NextToken();
      return if token != "[" then Failure(ArrayExpected) else Success(());
    }

    method NextField() returns (r: Result<string, Error>)
      modifies this
      ensures Agrees(r, Tokens(), JSON.NextField(old(Tokens())))
    {
      var token :- NextToken();
      if token == "," {
        token :- NextToken();
      }
      if token == "}" {
        return Success("");
      }
      if !IsQuoted(token) {
        return Failure(FieldNameExpected);
      }
      var colon :- NextToken();
      if colon != ":" {
        return Failure(BadField);
      }
      return Success(Unquoted(token));
    }

    method ArrayIsDone() returns (r: Result<bool, Error>)
      modifies this
      ensures Agrees(r, Tokens(), JSON.ArrayIsDone(old(Tokens())))
    {
      var token :- PeekToken();
      if token == "," {
        var _ :- NextToken();
        token :- PeekToken();
      }
      if token == "]" {
        var _ :- NextToken();
        return Success(true);
      }
      return Success(false);
    }

    /** Reports an endless loop instead of looping. */
    method IgnoreValue() returns (r: Result<(), Error>)
      modifies this
      ensures Agrees(r, Tokens(), JSON.IgnoreValue(old(Tokens())))
      decreases Size(Tokens())
    {
      var token :- PeekToken();
      if token == "[" {
        var _ :- StartArray();
        while true
          invariant JSON.IgnoreValue(old(Tokens())) == IgnoreElements(Tokens()) && Size(Tokens()) < old(Size(Tokens()))
          decreases Size(Tokens())
        {
          token :- PeekToken();
          if token == "" {
            return Failure(EndlessArray);
          }
          var _ :- IgnoreValue();
          var done :- ArrayIsDone();
          if done {
            return Success(());
          }
        }
      } else if token == "{" {
        var _ :- StartObject();
        while true
          invariant JSON.IgnoreValue(old(Tokens())) == IgnoreFields(Tokens()) && Size(Tokens()) < old(Size(Tokens()))
          decreases Size(Tokens())
        {
          var name :- NextField();
          if name == "" {
            return Success(());
          }
          var _ :- IgnoreValue();
        }
      } else {
        var _ :- NextToken();
        return Success(());
      }
    }

    method NextInt() returns (r: Result<int, Error>)
      modifies this
      ensures Agrees(r, Tokens(), JSON.NextInt(old(Tokens())))
    {
      var token :- NextToken();
      r := StringToInt(token, BadInt);
    }

    method NextDouble() returns (r: Result<string, Error>)
      modifies this
      ensures Agrees(r, Tokens(), JSON.NextDouble(old(Tokens())))
    {
      var token :- NextToken();
      return if token != "" && StartsNumber(token[0]) then Success(token) else Failure(BadDouble);
    }

    method NextString() returns (r: Result<string, Error>)
      modifies this
      ensures Agrees(r, Tokens(), JSON.NextString(old(Tokens())))
    {
      var token :- NextToken();
      return if IsQuoted(token) then Success(Unquoted(token)) else Failure(BadString);
    }

    method NextBool() returns (r: Result<bool, Error>)
      modifies this
      ensures Agrees(r, Tokens(), JSON.NextBool(old(Tokens())))
    {
      var token :- NextToken();
      if token == "true" {
        return Success(true);
      } else if token != "false" {
        return Failure(BadBool);
      }
      return Success(false);
    }
  }
}
