/** The stream as a class, which indents the first thing written on a line. */
module IndentedOStreams {
  import opened Sinks

  const INDENTS := "\t\t\t\t\t\t\t\t\t\t\t\t\t\t\t\t\t\t\t\t"
  const AVAILABLE_INDENTS: nat := 20

  /** The end of the constant. */
  function LastIndents(n: nat): (s: string)
    requires n <= AVAILABLE_INDENTS
    ensures s == Tabs(n)
  {
    AllTabs(n);
    INDENTS[AVAILABLE_INDENTS - n..]
  }

  lemma NoTabs(n: int)
    requires n <= 0
    ensures Tabs(n) == ""
  {
  }

  lemma {:induction false} AllTabs(n: nat)
    ensures |Tabs(n)| == n && forall i :: 0 <= i < n ==> Tabs(n)[i] == '\t'
  {
    if n > 0 {
      AllTabs(n - 1);
    }
  }

  class IndentedOStream {
    var stream: string
    var level: int
    var atBol: bool

    constructor ()
      ensures View() == Sink("", 0, true)
    {
      stream, level, atBol := "", 0, true;
    }

    ghost function View(): Sink
      reads this
    {
      Sink(stream, level, atBol)
    }

    /** Writes as many tabs at a time as there are in the constant it takes them from. */
    method WriteIndent()
      modifies this`stream
      ensures stream == old(stream) + Tabs(level)
    {
      hide Tabs, LastIndents;
      var indentsLeft := level;
      assert stream + "" == stream;
      NoTabs(0);
      if level <= 0 {
        NoTabs(level);
      }
      while indentsLeft > 0
        invariant level <= 0 ==> indentsLeft == level && stream == old(stream)
        invariant level > 0 ==> 0 <= indentsLeft <= level && stream == old(stream) + Tabs(level - indentsLeft)
      {
        var numIndents := indentsLeft;
        if numIndents > AVAILABLE_INDENTS {
          numIndents := AVAILABLE_INDENTS;
        }
        TabsConcat(level - indentsLeft, numIndents);
        stream := stream + LastIndents(numIndents);
        indentsLeft := indentsLeft - numIndents;
      }
    }

    method Put(value: string)
      modifies this
      ensures View() == Sinks.Put(old(View()), value)
    {
      if atBol {
        WriteIndent();
        atBol := false;
      }
      stream := stream + value;
    }

    method PutChar(c: char)
      modifies this
      ensures View() == Sinks.PutChar(old(View()), c)
    {
      if c == '\n' {
        stream := stream + "\n";
        atBol := true;
      } else {
        if atBol {
          WriteIndent();
          atBol := false;
        }
        stream := stream + [c];
      }
    }

    method Indent()
      modifies this
      ensures View() == Indented(old(View()))
    {
      level := level + 1;
    }

    method Unindent()
      modifies this
      ensures View() == Unindented(old(View()))
    {
      level := level - 1;
    }
  }
}
