/**
  The language of project files: how a text splits into tokens, and what each of the
  parser's readers makes of the stream of tokens that are left.
 */
module JSON {
  import opened Wrappers

  datatype Error =
    | ObjectExpected | FieldNameExpected | BadField | ArrayExpected
    | BadInt | BadDouble | BadString | BadBool | UnterminatedString
    | InvalidProjectFile
    | EndlessArray  // no exception: ignoring an array that is cut off never ends

  /** The tokens that are left: none, one after which there may be more, or a string that does not end. */
  datatype Stream = End | Bad | More(token: string, rest: Stream)

  /** What was read and what is left after it. */
  type Reading<T> = Result<(T, Stream), Error>

  function Size(s: Stream): nat {
    if s.More? then 1 + Size(s.rest) else 0
  }

  // ---------------------------------------------------------------- characters

  predicate IsSpace(c: char) {
    c == ' ' || c == '\t' || c == '\n' || c == '\r'
  }

  predicate IsDigit(c: char) {
    '0' <= c <= '9'
  }

  predicate IsLetter(c: char) {
    'a' <= c <= 'z' || 'A' <= c <= 'Z'
  }

  predicate IsPunctuation(c: char) {
    c == '{' || c == '}' || c == '[' || c == ']' || c == ',' || c == ':'
  }

  predicate StartsNumber(c: char) {
    IsDigit(c) || c == '-' || c == '+'
  }

  // ---------------------------------------------------------------- tokens

  /** How many spaces `text` begins with. */
  function SpaceEnd(text: string): (n: nat)
    ensures n <= |text| && (n < |text| ==> !IsSpace(text[n]))
  {
    if text != "" && IsSpace(text[0]) then 1 + SpaceEnd(text[1..]) else 0
  }

  /** Where a string ends of which `text` is what follows the opening quote; -1 if it does not. */
  function StringEnd(text: string): (n: int)
    ensures n == -1 || 1 <= n <= |text|
  {
    if text == "" then -1
    else if text[0] == '"' then 1
    else
      var skipped := if text[0] == '\\' then 2 else 1;
      if skipped > |text| then -1
      else
        var n := StringEnd(text[skipped..]);
        if n == -1 then -1 else skipped + n
  }

  /** How far a number goes on in `text`. */
  function NumberEnd(text: string, gotDot: bool, gotE: bool): (n: nat)
    ensures n <= |text|
  {
    if text == "" then 0
    else if IsDigit(text[0]) then 1 + NumberEnd(text[1..], gotDot, gotE)
    else if text[0] == '.' && !gotDot then 1 + NumberEnd(text[1..], true, gotE)
    else if (text[0] == 'e' || text[0] == 'E') && !gotE then 1 + NumberEnd(text[1..], gotDot, true)
    else 0
  }

  function WordEnd(text: string): (n: nat)
    ensures n <= |text|
  {
    if text != "" && IsLetter(text[0]) then 1 + WordEnd(text[1..]) else 0
  }

  /** How long the token is that `text` begins with, which is not empty; -1 if it is a string without an end. */
  function TokenEnd(text: string): (n: int)
    requires text != ""
    ensures n == -1 || 1 <= n <= |text|
  {
    if text[0] == '"' then (var n := StringEnd(text[1..]); if n == -1 then -1 else 1 + n)
    else if IsPunctuation(text[0]) then 1
    else if StartsNumber(text[0]) then 1 + NumberEnd(text[1..], false, false)
    else 1 + WordEnd(text[1..])
  }

  /** A character 0 ends the text early. */
  predicate AtEnd(text: string) {
    text == "" || text[0] == '\0'
  }

  function Lex(text: string): Stream
    decreases |text|
  {
    var start := text[SpaceEnd(text)..];
    if AtEnd(start) then End
    else if TokenEnd(start) == -1 then Bad
    else More(start[..TokenEnd(start)], Lex(start[TokenEnd(start)..]))
  }

  // ---------------------------------------------------------------- numbers

  function Digit(c: char): nat {
    if IsDigit(c) then c as nat - '0' as nat
    else if 'a' <= c <= 'f' then c as nat - 'a' as nat + 10
    else if 'A' <= c <= 'F' then c as nat - 'A' as nat + 10
    else 16
  }

  /** How many digits of the base `s` begins with. */
  function DigitsEnd(s: string, base: nat): (n: nat)
    ensures n <= |s|
  {
    if s != "" && Digit(s[0]) < base then 1 + DigitsEnd(s[1..], base) else 0
  }

  function ValueOf(digits: string, base: nat): nat {
    if digits == "" then 0 else ValueOf(digits[..|digits| - 1], base) * base + Digit(digits[|digits| - 1])
  }

  /** What `strtol` skips first. */
  function BlankEnd(s: string): (n: nat)
    ensures n <= |s|
  {
    if s != "" && (IsSpace(s[0]) || s[0] == '\U{000B}' || s[0] == '\U{000C}') then 1 + BlankEnd(s[1..]) else 0
  }

  /** A C string ends at the first character 0. */
  function CString(s: string): string {
    if s == "" || s[0] == '\0' then "" else [s[0]] + CString(s[1..])
  }

  const LONG_MAX: int := 0x7FFF_FFFF_FFFF_FFFF

  /** `strtol` saturates. */
  function Saturated(n: int): (r: int)
    ensures -0x8000_0000_0000_0000 <= n < 0x8000_0000_0000_0000 ==> r == n
    ensures n < -0x8000_0000_0000_0000 ==> r == -0x8000_0000_0000_0000
    ensures n >= 0x8000_0000_0000_0000 ==> r == 0x7FFF_FFFF_FFFF_FFFF
  {
    if n > LONG_MAX then LONG_MAX else if n < -LONG_MAX - 1 then -LONG_MAX - 1 else n
  }

  /** A `long` stored in a 32-bit `int`. */
  function ToInt(n: int): (r: int)
    ensures -0x8000_0000 <= r < 0x8000_0000 && (r - n) % 0x1_0000_0000 == 0
    ensures -0x8000_0000 <= n < 0x8000_0000 ==> r == n
  {
    (n + 0x8000_0000) % 0x1_0000_0000 - 0x8000_0000
  }

  /** The whole of `digits`, which may begin with 0x or 0, as `strtol` reads it; -1 if it is no number. */
  function Magnitude(digits: string): int {
    if |digits| >= 3 && digits[0] == '0' && (digits[1] == 'x' || digits[1] == 'X') && Digit(digits[2]) < 16 then
      WholeValue(digits[2..], 16)
    else if digits != "" && digits[0] == '0' then WholeValue(digits, 8)
    else WholeValue(digits, 10)
  }

  function WholeValue(digits: string, base: nat): int {
    if digits != "" && DigitsEnd(digits, base) == |digits| then ValueOf(digits, base) else -1
  }

  /** `strtol` in base 0 on a whole string, stored in an `int`. */
  function StringToInt(s: string, error: Error): Result<int, Error> {
    var c := CString(s);
    var body := c[BlankEnd(c)..];
    var signed := body != "" && (body[0] == '-' || body[0] == '+');
    var magnitude := Magnitude(if signed then body[1..] else body);
    if magnitude == -1 then Failure(error)
    else Success(ToInt(Saturated(if signed && body[0] == '-' then -magnitude else magnitude)))
  }

  // ---------------------------------------------------------------- reading from the stream

  /** The end of the text reads as an empty token. */
  function Token(s: Stream): (r: Reading<string>)
    ensures r.Success? ==> Size(r.value.1) <= Size(s) && (r.value.0 != "" ==> s.More?)
    ensures r.Success? && s.More? ==> Size(r.value.1) < Size(s)
  {
    match s
    case End => Success(("", End))
    case Bad => Failure(UnterminatedString)
    case More(token, rest) => Success((token, rest))
  }

  /** The next token has to be `expected`. */
  function Expect(s: Stream, expected: string, error: Error): (r: Reading<()>)
    requires expected != ""
    ensures r.Success? ==> Size(r.value.1) < Size(s)
  {
    var (token, rest) :- Token(s);
    if token != expected then Failure(error) else Success(((), rest))
  }

  function StartObject(s: Stream): (r: Reading<()>)
    ensures r.Success? ==> Size(r.value.1) < Size(s)
  {
    Expect(s, "{", ObjectExpected)
  }

  function StartArray(s: Stream): (r: Reading<()>)
    ensures r.Success? ==> Size(r.value.1) < Size(s)
  {
    Expect(s, "[", ArrayExpected)
  }

  predicate IsQuoted(token: string) {
    token != "" && token[0] == '"'
  }

  function Unquoted(token: string): string {
    if |token| >= 2 then token[1..|token| - 1] else ""
  }

  /** The name of the next field, or the empty string at the end of the object.  A comma may come before it. */
  function NextField(s: Stream): (r: Reading<string>)
    ensures r.Success? ==> Size(r.value.1) < Size(s)
  {
    var (first, rest) :- Token(s);
    var (token, rest) :- if first == "," then Token(rest) else Success((first, rest));
    if token == "}" then Success(("", rest))
    else if !IsQuoted(token) then Failure(FieldNameExpected)
    else
      var (_, rest) :- Expect(rest, ":", BadField);
      Success((Unquoted(token), rest))
  }

  /** Whether the array ends here.  A comma may come before the end, and need not come between elements. */
  function ArrayIsDone(s: Stream): (r: Reading<bool>)
    ensures r.Success? ==> Size(r.value.1) <= Size(s)
    ensures r.Success? && r.value.0 ==> Size(r.value.1) < Size(s)
  {
    var (token, _) :- Token(s);
    var rest := if token == "," then s.rest else s;
    var (token, after) :- Token(rest);
    if token == "]" then Success((true, after)) else Success((false, rest))
  }

  function IgnoreValue(s: Stream): (r: Reading<()>)
    ensures r.Success? ==> Size(r.value.1) <= Size(s)
    ensures r.Success? && s.More? ==> Size(r.value.1) < Size(s)
    decreases Size(s), 0
  {
    var (token, rest) :- Token(s);
    if token == "[" then IgnoreElements(rest)
    else if token == "{" then IgnoreFields(rest)
    else Success(((), rest))
  }

  function IgnoreElements(s: Stream): (r: Reading<()>)
    ensures r.Success? ==> Size(r.value.1) <= Size(s)
    decreases Size(s), 1
  {
    if s.End? then Failure(EndlessArray)
    else
      var (_, rest) :- IgnoreValue(s);
      var (done, rest) :- ArrayIsDone(rest);
      if done then Success(((), rest)) else IgnoreElements(rest)
  }

  function IgnoreFields(s: Stream): (r: Reading<()>)
    ensures r.Success? ==> Size(r.value.1) <= Size(s)
    decreases Size(s), 1
  {
    var (name, rest) :- NextField(s);
    if name == "" then Success(((), rest))
    else
      var (_, rest) :- IgnoreValue(rest);
      IgnoreFields(rest)
  }

  function NextInt(s: Stream): (r: Reading<int>)
    ensures r.Success? ==> Size(r.value.1) <= Size(s)
  {
    var (token, rest) :- Token(s);
    var n :- StringToInt(token, BadInt);
    Success((n, rest))
  }

  /** A number is kept as its text. */
  function NextDouble(s: Stream): (r: Reading<string>)
    ensures r.Success? ==> Size(r.value.1) <= Size(s)
  {
    var (token, rest) :- Token(s);
    if token != "" && StartsNumber(token[0]) then Success((token, rest)) else Failure(BadDouble)
  }

  function NextString(s: Stream): (r: Reading<string>)
    ensures r.Success? ==> Size(r.value.1) <= Size(s)
  {
    var (token, rest) :- Token(s);
    if IsQuoted(token) then Success((Unquoted(token), rest)) else Failure(BadString)
  }

  function NextBool(s: Stream): (r: Reading<bool>)
    ensures r.Success? ==> Size(r.value.1) <= Size(s)
  {
    var (token, rest) :- Token(s);
    if token == "true" then Success((true, rest))
    else if token == "false" then Success((false, rest))
    else Failure(BadBool)
  }
}
