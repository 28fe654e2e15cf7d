/**
  The stream that project files are written to.  The first thing written on a line is
  preceded by a tab for each level of indentation.
 */
module Sinks {

  datatype Sink = Sink(out: string, level: int, atBol: bool)

  function Tabs(n: int): string {
    if n <= 0 then "" else Tabs(n - 1) + "\t"
  }

  function Started(k: Sink): Sink {
    if k.atBol then k.(out := k.out + Tabs(k.level), atBol := false) else k
  }

  function Put(k: Sink, value: string): Sink {
    var k := Started(k);
    k.(out := k.out + value)
  }

  /** Lines are ended with the character '\n' and not with a string. */
  function PutChar(k: Sink, c: char): Sink {
    if c == '\n' then k.(out := k.out + "\n", atBol := true) else Put(k, [c])
  }

  function Indented(k: Sink): Sink {
    k.(level := k.level + 1)
  }

  function Unindented(k: Sink): Sink {
    k.(level := k.level - 1)
  }

  lemma {:induction false} TabsConcat(a: nat, b: nat)
    ensures Tabs(a) + Tabs(b) == Tabs(a + b)
    decreases b
  {
    if b > 0 {
      TabsConcat(a, b - 1);
      assert Tabs(a) + Tabs(b) == (Tabs(a) + Tabs(b - 1)) + "\t";
    } else {
      assert Tabs(a) + "" == Tabs(a);
    }
  }

  // ---------------------------------------------------------------- what is printed

  /** What is done with a stream. */
  datatype Action = Text(value: string) | Character(c: char) | Indent | Unindent

  function Done(k: Sink, action: Action): Sink {
    match action
    case Text(value) => Put(k, value)
    case Character(c) => PutChar(k, c)
    case Indent => Indented(k)
    case Unindent => Unindented(k)
  }

  function AllDone(k: Sink, actions: seq<Action>): Sink
    decreases |actions|
  {
    if actions == [] then k else Done(AllDone(k, actions[..|actions| - 1]), actions[|actions| - 1])
  }

  /** How many more times the stream was indented than unindented. */
  function Depth(actions: seq<Action>): int
    decreases |actions|
  {
    if actions == [] then 0
    else
      Depth(actions[..|actions| - 1])
      + match actions[|actions| - 1] { case Indent => 1 case Unindent => -1 case _ => 0 }
  }

  /** Nothing was written yet, or nothing since the character that ended a line. */
  predicate AtLineStart(actions: seq<Action>)
    decreases |actions|
  {
    actions == [] ||
    match actions[|actions| - 1]
    case Text(_) => false
    case Character(c) => c == '\n'
    case _ => AtLineStart(actions[..|actions| - 1])
  }

  /** Everything that was written, with as many tabs as the stream is deep before the first thing on each line. */
  function Printed(actions: seq<Action>): string
    decreases |actions|
  {
    if actions == [] then ""
    else
      var before := actions[..|actions| - 1];
      var tabs := if AtLineStart(before) then Tabs(Depth(before)) else "";
      Printed(before)
      + match actions[|actions| - 1]
        case Text(value) => tabs + value
        case Character(c) => if c == '\n' then [c] else tabs + [c]
        case _ => ""
  }

  /** A line is indented when something is written on it, by the depth at that time; empty lines are not. */
  lemma {:induction false} LayoutIsIndented(actions: seq<Action>)
    ensures AllDone(Sink("", 0, true), actions) == Sink(Printed(actions), Depth(actions), AtLineStart(actions))
    decreases |actions|
  {
    hide Tabs;
    if actions != [] {
      var before := actions[..|actions| - 1];
      LayoutIsIndented(before);
      assert forall value :: Printed(before) + (Tabs(Depth(before)) + value) == Printed(before) + Tabs(Depth(before)) + value;
      assert Printed(before) + "" == Printed(before);
    }
  }
}
