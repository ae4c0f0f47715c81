/** A reference definition of "try the spellings in order, first match wins",
    independent of how any reader is written. */
module Forms {
  import opened ScanResults

  /** One lexical form of a boolean: its spelling and the value it denotes. */
  datatype Form = Form(spelling: seq<char>, value: bool)

  /** A successful read: the value produced and the range left over. */
  datatype Match = Match(value: bool, rest: seq<char>)

  /** Tries `forms` in order against the start of `s`; the first spelling that
      is a prefix of `s` decides the value and is consumed. */
  function FirstMatch(forms: seq<Form>, s: seq<char>): (r: Option<Match>)
    ensures r.Some? ==> IsSuffix(r.value.rest, s)
  {
    if forms == [] then None
    else if forms[0].spelling <= s then Some(Match(forms[0].value, s[|forms[0].spelling|..]))
    else FirstMatch(forms[1..], s)
  }

  /** Form `i` is the earliest of `forms` whose spelling starts `s`. */
  ghost predicate IsFirstMatching(forms: seq<Form>, s: seq<char>, i: int) {
    0 <= i < |forms| && forms[i].spelling <= s &&
    forall j :: 0 <= j < i ==> !(forms[j].spelling <= s)
  }

  /** FirstMatch fails exactly when no spelling starts `s`; when it succeeds,
      the earliest matching form gave the value and was consumed. */
  lemma {:induction false} FirstMatchChosen(forms: seq<Form>, s: seq<char>)
    ensures FirstMatch(forms, s).None? <==> forall i :: 0 <= i < |forms| ==> !(forms[i].spelling <= s)
    ensures FirstMatch(forms, s).Some? ==>
      exists i :: IsFirstMatching(forms, s, i) &&
        FirstMatch(forms, s).value == Match(forms[i].value, s[|forms[i].spelling|..]) &&
        s == forms[i].spelling + FirstMatch(forms, s).value.rest
  {
    if forms != [] && !(forms[0].spelling <= s) {
      FirstMatchChosen(forms[1..], s);
      if FirstMatch(forms, s).Some? {
        var i :| IsFirstMatching(forms[1..], s, i) &&
          FirstMatch(forms, s).value == Match(forms[1..][i].value, s[|forms[1..][i].spelling|..]) &&
          s == forms[1..][i].spelling + FirstMatch(forms, s).value.rest;
        assert IsFirstMatching(forms, s, i + 1);
      }
    } else if forms != [] {
      assert IsFirstMatching(forms, s, 0);
      assert s == forms[0].spelling + s[|forms[0].spelling|..];
    }
  }

  /** Trying `a` and then `b` is trying `a + b`. */
  lemma {:induction false} FirstMatchAppend(a: seq<Form>, b: seq<Form>, s: seq<char>)
    ensures FirstMatch(a + b, s) == if FirstMatch(a, s).Some? then FirstMatch(a, s) else FirstMatch(b, s)
  {
    if a == [] {
      assert a + b == b;
    } else {
      assert (a + b)[0] == a[0];
      assert (a + b)[1..] == a[1..] + b;
      FirstMatchAppend(a[1..], b, s);
    }
  }

  /** First-match over two forms. */
  lemma FirstMatchPair(f: Form, g: Form, s: seq<char>)
    ensures FirstMatch([f, g], s) ==
      if f.spelling <= s then Some(Match(f.value, s[|f.spelling|..]))
      else if g.spelling <= s then Some(Match(g.value, s[|g.spelling|..]))
      else None
  {
    assert [f, g][0] == f && [f, g][1..] == [g];
    assert [g][0] == g && [g][1..] == [];
    assert FirstMatch([g], s) == if g.spelling <= s then Some(Match(g.value, s[|g.spelling|..])) else FirstMatch([], s);
  }

  /** The order of two spellings matters only when one is a prefix of the other. */
  lemma OrderIrrelevantUnlessNested(f: Form, g: Form, s: seq<char>)
    requires !(f.spelling <= g.spelling) && !(g.spelling <= f.spelling)
    ensures FirstMatch([f, g], s) == FirstMatch([g, f], s)
  {
  }
}
