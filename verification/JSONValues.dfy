/**
  Values of JSON as trees, with their tokens, and what the parser makes of one that it
  ignores: all of it and no more, if and only if there is no empty array in it.
 */
module JSONValues {
  import opened JSON
  import opened ProjectFiles
  import opened ProjectText
  import opened ProjectRoundTrip
  import opened Wrappers

  datatype Value = Scalar(token: string) | Array(elements: seq<Value>) | Object(members: seq<Member>)

  datatype Member = Member(name: string, value: Value)

  /** Scalars are tokens other than punctuation, and fields have names, as those of the empty name end an object. */
  predicate Proper(v: Value) {
    match v
    case Scalar(token) => token != "" && !IsPunctuation(token[0])
    case Array(elements) => forall i :: 0 <= i < |elements| ==> Proper(elements[i])
    case Object(members) => forall i :: 0 <= i < |members| ==> members[i].name != "" && Proper(members[i].value)
  }

  function ValueTokens(v: Value, s: Stream): Stream
    decreases v
  {
    match v
    case Scalar(token) => More(token, s)
    case Array(elements) => More("[", ElementTokens(elements, true, s))
    case Object(members) => More("{", MemberTokens(members, true, s))
  }

  function ElementTokens(elements: seq<Value>, first: bool, s: Stream): Stream
    decreases elements
  {
    if elements == [] then More("]", s)
    else
      var t := ValueTokens(elements[0], ElementTokens(elements[1..], false, s));
      if first then t else Comma(t)
  }

  function MemberTokens(members: seq<Member>, first: bool, s: Stream): Stream
    decreases members
  {
    if members == [] then More("}", s)
    else
      var t := ValueTokens(members[0].value, MemberTokens(members[1..], false, s));
      var t := More(Quoted(members[0].name), More(":", t));
      if first then t else Comma(t)
  }

  /** How many arrays in a value have no element. */
  function EmptyArrays(v: Value): nat
    decreases v
  {
    match v
    case Scalar(_) => 0
    case Array(elements) => if elements == [] then 1 else EmptyInElements(elements)
    case Object(members) => EmptyInMembers(members)
  }

  function EmptyInElements(elements: seq<Value>): nat
    decreases elements
  {
    if elements == [] then 0 else EmptyArrays(elements[0]) + EmptyInElements(elements[1..])
  }

  function EmptyInMembers(members: seq<Member>): nat
    decreases members
  {
    if members == [] then 0 else EmptyArrays(members[0].value) + EmptyInMembers(members[1..])
  }

  // ---------------------------------------------------------------- the loops over arrays and objects

  lemma ValueOpens(v: Value, s: Stream)
    requires Proper(v)
    ensures var t := ValueTokens(v, s); t.More? && t.token != "]" && t.token != "}" && t.token != ","
  {
    hide ElementTokens, MemberTokens;
  }

  /** An array ends after its last element and goes on before any other. */
  lemma ElementFound(elements: seq<Value>, first: bool, s: Stream)
    requires Proper(Array(elements))
    ensures ArrayIsDone(ElementTokens(elements, first, s))
         == if elements == [] then Success((true, s)) else Success((false, ElementTokens(elements, true, s)))
  {
    if elements != [] {
      ValueOpens(elements[0], ElementTokens(elements[1..], false, s));
      hide Proper, ValueTokens;
    }
  }

  /** An object ends after its last field, and the name of any other is read. */
  lemma MemberFound(members: seq<Member>, first: bool, s: Stream)
    requires Proper(Object(members))
    ensures NextField(MemberTokens(members, first, s))
         == if members == [] then Success(("", s))
            else Success((members[0].name, ValueTokens(members[0].value, MemberTokens(members[1..], false, s))))
  {
    hide NextField, ValueTokens, Quoted;
    if members == [] {
      NoFieldReads(s);
    } else {
      FieldReads(members[0].name, ValueTokens(members[0].value, MemberTokens(members[1..], false, s)));
    }
  }

  // ---------------------------------------------------------------- what is ignored

  lemma {:induction false} ValueIgnored(v: Value, s: Stream)
    requires Proper(v) && EmptyArrays(v) == 0
    ensures IgnoreValue(ValueTokens(v, s)) == Success(((), s))
    decreases v, 0
  {
    hide IgnoreElements, IgnoreFields, ElementTokens, MemberTokens, EmptyInElements, EmptyInMembers;
    match v
    case Scalar(_) =>
    case Array(elements) => ElementsIgnored(elements, s);
    case Object(members) => MembersIgnored(members, true, s);
  }

  lemma {:induction false} ElementsIgnored(elements: seq<Value>, s: Stream)
    requires Proper(Array(elements)) && elements != [] && EmptyInElements(elements) == 0
    ensures IgnoreElements(ElementTokens(elements, true, s)) == Success(((), s))
    decreases elements, 1
  {
    hide IgnoreValue, ArrayIsDone, ValueTokens, EmptyArrays;
    var rest := ElementTokens(elements[1..], false, s);
    ValueIgnored(elements[0], rest);
    ValueOpens(elements[0], rest);
    ElementFound(elements[1..], false, s);
    if |elements| > 1 {
      ElementsIgnored(elements[1..], s);
    }
  }

  lemma {:induction false} MembersIgnored(members: seq<Member>, first: bool, s: Stream)
    requires Proper(Object(members)) && EmptyInMembers(members) == 0
    ensures IgnoreFields(MemberTokens(members, first, s)) == Success(((), s))
    decreases members, 1
  {
    hide IgnoreValue, NextField, ValueTokens, EmptyArrays, MemberTokens;
    MemberFound(members, first, s);
    if members != [] {
      ValueIgnored(members[0].value, MemberTokens(members[1..], false, s));
      MembersIgnored(members[1..], false, s);
    }
  }

  // ---------------------------------------------------------------- brackets

  predicate Closes(s: Stream) {
    s.More? && s.token == "]"
  }

  /** How many more arrays begin than end in a stream, those that end as soon as they begin counted twice. */
  function Weight(s: Stream): int {
    if !s.More? then 0
    else
      (if s.token == "[" then (if Closes(s.rest) then 2 else 1) else if s.token == "]" then -1 else 0) + Weight(s.rest)
  }

  lemma Weightless(token: string, rest: Stream)
    requires token == "," || token == ":" || token == "{" || token == "}" || IsQuoted(token)
    ensures Weight(More(token, rest)) == Weight(rest)
  {
    assert "["[0] != '"' && "]"[0] != '"';
  }

  /** The fields of an object are found between tokens that are no brackets. */
  lemma FieldWeighsNothing(s: Stream)
    ensures var r := NextField(s); r.Success? ==> Weight(r.value.1) == Weight(s)
  {
    hide Weight, Unquoted;
    if NextField(s).Success? {
      Weightless(s.token, s.rest);
      var rest := if s.token == "," then s.rest else s;
      Weightless(rest.token, rest.rest);
      if rest.token != "}" {
        Weightless(":", rest.rest.rest);
      }
    }
  }

  lemma EndWeighs(s: Stream)
    ensures var r := ArrayIsDone(s); r.Success? ==> Weight(r.value.1) == Weight(s) + if r.value.0 then 1 else 0
  {
  }

  /** For each array that is ignored a bracket is taken that closes one, and one more if it is empty. */
  lemma {:induction false} IgnoringTakesBrackets(s: Stream)
    ensures var r := IgnoreValue(s); r.Success? ==> Weight(s) <= Weight(r.value.1)
    ensures var r := IgnoreValue(s); r.Success? && Closes(s) ==> Weight(s) < Weight(r.value.1)
    decreases Size(s), 0
  {
    hide IgnoreElements, IgnoreFields;
    if s.More? && s.token == "[" {
      ElementsTakeBrackets(s.rest);
    } else if s.More? && s.token == "{" {
      FieldsTakeBrackets(s.rest);
    }
  }

  lemma {:induction false} ElementsTakeBrackets(s: Stream)
    ensures var r := IgnoreElements(s); r.Success? ==> Weight(s) + (if Closes(s) then 2 else 1) <= Weight(r.value.1)
    decreases Size(s), 1
  {
    var value := IgnoreValue(s);
    assert s.Bad? ==> value.Failure?;
    hide IgnoreValue, ArrayIsDone, Weight;
    if !s.End? && value.Success? {
      IgnoringTakesBrackets(s);
      EndWeighs(value.value.1);
      var done := ArrayIsDone(value.value.1);
      if done.Success? && !done.value.0 {
        ElementsTakeBrackets(done.value.1);
      }
    }
  }

  lemma {:induction false} FieldsTakeBrackets(s: Stream)
    ensures var r := IgnoreFields(s); r.Success? ==> Weight(s) <= Weight(r.value.1)
    decreases Size(s), 1
  {
    hide IgnoreValue, NextField, Weight;
    var field := NextField(s);
    FieldWeighsNothing(s);
    if field.Success? && field.value.0 != "" {
      var value := IgnoreValue(field.value.1);
      IgnoringTakesBrackets(field.value.1);
      if value.Success? {
        FieldsTakeBrackets(value.value.1);
      }
    }
  }

  lemma {:induction false} ValueWeight(v: Value, s: Stream)
    requires Proper(v)
    ensures Weight(ValueTokens(v, s)) == Weight(s) + EmptyArrays(v)
    decreases v, 0
  {
    hide ElementTokens, MemberTokens, EmptyInMembers;
    match v
    case Scalar(_) =>
    case Array(elements) =>
      ElementsWeight(elements, true, s);
      ElementsClose(elements, s);
    case Object(members) => MembersWeight(members, true, s);
  }

  lemma ElementsClose(elements: seq<Value>, s: Stream)
    requires Proper(Array(elements))
    ensures Closes(ElementTokens(elements, true, s)) <==> elements == []
  {
    if elements != [] {
      ValueOpens(elements[0], ElementTokens(elements[1..], false, s));
    }
  }

  lemma {:induction false} ElementsWeight(elements: seq<Value>, first: bool, s: Stream)
    requires Proper(Array(elements))
    ensures Weight(ElementTokens(elements, first, s)) == Weight(s) + EmptyInElements(elements) - 1
    decreases elements, 1
  {
    hide ValueTokens, EmptyArrays;
    if elements != [] {
      ValueWeight(elements[0], ElementTokens(elements[1..], false, s));
      ElementsWeight(elements[1..], false, s);
    }
  }

  lemma {:induction false} MembersWeight(members: seq<Member>, first: bool, s: Stream)
    requires Proper(Object(members))
    ensures Weight(MemberTokens(members, first, s)) == Weight(s) + EmptyInMembers(members)
    decreases members, 1
  {
    hide ValueTokens, EmptyArrays, Weight, Quoted;
    if members == [] {
      Weightless("}", s);
    } else {
      var t := ValueTokens(members[0].value, MemberTokens(members[1..], false, s));
      ValueWeight(members[0].value, MemberTokens(members[1..], false, s));
      MembersWeight(members[1..], false, s);
      UnquotedQuoted(members[0].name);
      Weightless(":", t);
      Weightless(Quoted(members[0].name), More(":", t));
      Weightless(",", More(Quoted(members[0].name), More(":", t)));
    }
  }

  // ---------------------------------------------------------------- the results

  /** Ignoring a value takes just its tokens if and only if no array in it is empty, whatever follows. */
  lemma IgnoredIfNotEmpty(v: Value, s: Stream)
    requires Proper(v)
    ensures IgnoreValue(ValueTokens(v, s)) == Success(((), s)) <==> EmptyArrays(v) == 0
  {
    hide IgnoreValue, ValueTokens, Weight, EmptyArrays;
    if EmptyArrays(v) == 0 {
      ValueIgnored(v, s);
    } else {
      ValueWeight(v, s);
      IgnoringTakesBrackets(ValueTokens(v, s));
    }
  }

  /** What comes after an empty array is taken for more of its elements, up to another closing bracket. */
  lemma EmptyArrayGoesOn(s: Stream)
    ensures var more := ArrayIsDone(s);
            IgnoreValue(ValueTokens(Array([]), s))
            == if more.Failure? then Failure(more.error)
               else if more.value.0 then Success(((), more.value.1))
               else IgnoreElements(more.value.1)
  {
    hide ArrayIsDone;
    assert IgnoreValue(More("]", s)) == Success(((), s));
  }

  lemma EmptyNameTokens(v: Value, members: seq<Member>, s: Stream)
    ensures ValueTokens(Object([Member("", v)] + members), s)
         == More("{", More(Quoted(""), More(":", ValueTokens(v, MemberTokens(members, false, s)))))
  {
    hide Quoted;
    var all := [Member("", v)] + members;
    assert all[0] == Member("", v) && all[1..] == members;
  }

  /** A field of the empty name ends the object: its value, and what follows, are left. */
  lemma EmptyNameEndsObject(v: Value, members: seq<Member>, s: Stream)
    ensures IgnoreValue(ValueTokens(Object([Member("", v)] + members), s))
         == Success(((), ValueTokens(v, MemberTokens(members, false, s))))
  {
    hide ValueTokens, MemberTokens;
    EmptyNameTokens(v, members, s);
  }
}
