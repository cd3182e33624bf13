/** Splitting and joining of negative prompts. A prompt is a list of terms
    separated by commas, newlines or semicolons (ASCII or full width); joining
    prints the distinct terms of several prompts with ", " between them. */
module NegativePrompts {
  import opened Text

  predicate IsSeparator(c: char) {
    c == ',' || c == '\n' || c == ';' || c == '\U{FF0C}' || c == '\U{FF1B}'
  }

  // strings.FieldsFunc: the maximal runs of characters that are not separators.
  function Fields(s: string): seq<string> {
    FieldsFrom(s, "")
  }

  function FieldsFrom(s: string, current: string): seq<string>
    decreases |s|
  {
    if s == "" then Field(current)
    else if IsSeparator(s[0]) then Field(current) + FieldsFrom(s[1..], "")
    else FieldsFrom(s[1..], current + [s[0]])
  }

  function Field(run: string): seq<string> {
    if run == "" then [] else [run]
  }

  // Trim every field and drop the blank ones.
  function Clean(fields: seq<string>): seq<string> {
    if fields == [] then []
    else Clean(fields[..|fields| - 1]) + Field(Trim(fields[|fields| - 1]))
  }

  function Terms(s: string): seq<string> {
    Clean(Fields(s))
  }

  function AllTerms(values: seq<string>): seq<string> {
    if values == [] then []
    else AllTerms(values[..|values| - 1]) + Terms(values[|values| - 1])
  }

  // Keep the first occurrence of every element.
  function Dedup(xs: seq<string>): seq<string> {
    if xs == [] then []
    else
      var d := Dedup(xs[..|xs| - 1]);
      if xs[|xs| - 1] in d then d else d + [xs[|xs| - 1]]
  }

  // strings.Join(items, ", ")
  function Join(items: seq<string>): string {
    if items == [] then ""
    else if |items| == 1 then items[0]
    else items[0] + ", " + Join(items[1..])
  }

  // What both services compute.
  function JoinedNegatives(values: seq<string>): string {
    Join(Dedup(AllTerms(values)))
  }

  // ---- The two implementations ----

  // splitPromptTerms of the image runtime.
  method SplitPromptTerms(value: string) returns (out: seq<string>)
    ensures out == Terms(value)
  {
    var tokens := Fields(value);
    out := [];
    var i := 0;
    while i < |tokens|
      invariant 0 <= i <= |tokens|
      invariant out == Clean(tokens[..i])
    {
      var token := Trim(tokens[i]);
      CleanStep(tokens, i);
      if token != "" {
        out := out + [token];
      }
      i := i + 1;
    }
    assert tokens[..i] == tokens;
  }

  // joinNegativePrompts of the image runtime: split each value, then skip
  // every term already seen.
  method JoinNegativePrompts(values: seq<string>) returns (joined: string)
    ensures joined == JoinedNegatives(values)
  {
    var seen: set<string> := {};
    var items: seq<string> := [];
    var i := 0;
    assert items == Dedup(AllTerms(values[..i]));
    hide Dedup, AllTerms, Terms, Join;
    while i < |values|
      invariant 0 <= i <= |values|
      invariant items == Dedup(AllTerms(values[..i]))
      invariant forall x :: x in seen <==> x in items
    {
      var tokens := SplitPromptTerms(values[i]);
      ghost var before := AllTerms(values[..i]);
      var j := 0;
      assert before + tokens[..j] == before;
      while j < |tokens|
        invariant 0 <= j <= |tokens|
        invariant items == Dedup(before + tokens[..j])
        invariant forall x :: x in seen <==> x in items
      {
        DedupTakeStep(before, tokens, j);
        if tokens[j] !in seen {
          seen := seen + {tokens[j]};
          items := items + [tokens[j]];
        }
        j := j + 1;
      }
      assert tokens[..j] == tokens;
      AllTermsStep(values, i);
      i := i + 1;
    }
    assert values[..i] == values;
    joined := Join(items);
  }

  // joinNegativePrompts of the prompt centre: one pass over the raw fields,
  // trimming, skipping blanks and skipping terms already seen.
  method JoinNegativePromptsOnePass(values: seq<string>) returns (joined: string)
    ensures joined == JoinedNegatives(values)
  {
    var seen: set<string> := {};
    var items: seq<string> := [];
    var i := 0;
    assert items == Dedup(AllTerms(values[..i]));
    hide Dedup, AllTerms, Terms, Join;
    while i < |values|
      invariant 0 <= i <= |values|
      invariant items == Dedup(AllTerms(values[..i]))
      invariant forall x :: x in seen <==> x in items
    {
      var tokens := Fields(values[i]);
      ghost var before := AllTerms(values[..i]);
      var j := 0;
      assert before + Clean(tokens[..j]) == before;
      while j < |tokens|
        invariant 0 <= j <= |tokens|
        invariant items == Dedup(before + Clean(tokens[..j]))
        invariant forall x :: x in seen <==> x in items
      {
        var token := Trim(tokens[j]);
        DedupCleanStep(before, tokens, j);
        if token != "" {
          if token !in seen {
            seen := seen + {token};
            items := items + [token];
          }
        }
        j := j + 1;
      }
      assert tokens[..j] == tokens;
      AllTermsStep(values, i);
      i := i + 1;
    }
    assert values[..i] == values;
    joined := Join(items);
  }

  lemma CleanStep(tokens: seq<string>, i: nat)
    requires i < |tokens|
    ensures Clean(tokens[..i + 1]) == Clean(tokens[..i]) + Field(Trim(tokens[i]))
  {
    assert tokens[..i + 1][..i] == tokens[..i];
  }

  lemma AllTermsStep(values: seq<string>, i: nat)
    requires i < |values|
    ensures AllTerms(values[..i + 1]) == AllTerms(values[..i]) + Terms(values[i])
  {
    assert values[..i + 1][..i] == values[..i];
  }

  lemma DedupTakeStep(before: seq<string>, tokens: seq<string>, j: nat)
    requires j < |tokens|
    ensures var d := Dedup(before + tokens[..j]);
            Dedup(before + tokens[..j + 1]) == if tokens[j] in d then d else d + [tokens[j]]
  {
    DedupStep(before + tokens[..j], tokens[j]);
    assert before + tokens[..j] + [tokens[j]] == before + tokens[..j + 1];
  }

  lemma DedupCleanStep(before: seq<string>, tokens: seq<string>, j: nat)
    requires j < |tokens|
    ensures var token, d := Trim(tokens[j]), Dedup(before + Clean(tokens[..j]));
            Dedup(before + Clean(tokens[..j + 1])) == if token == "" || token in d then d else d + [token]
  {
    var token, terms := Trim(tokens[j]), Clean(tokens[..j]);
    CleanStep(tokens, j);
    if token == "" {
      assert Clean(tokens[..j + 1]) == terms;
    } else {
      assert before + Clean(tokens[..j + 1]) == before + terms + [token];
      DedupStep(before + terms, token);
    }
  }

  // ---- Meaning of the pieces ----

  // A term: trimmed, not empty, and free of separators.
  predicate IsTerm(t: string) {
    t != "" && Trimmed(t) && forall c :: c in t ==> !IsSeparator(c)
  }

  function WithoutSeparators(s: string): string {
    if s == "" then ""
    else (if IsSeparator(s[0]) then "" else [s[0]]) + WithoutSeparators(s[1..])
  }

  function Concat(xs: seq<string>): string {
    if xs == [] then "" else xs[0] + Concat(xs[1..])
  }

  lemma ConcatAppend(xs: seq<string>, ys: seq<string>)
    ensures Concat(xs + ys) == Concat(xs) + Concat(ys)
  {
    if xs == [] {
      assert xs + ys == ys;
    } else {
      assert (xs + ys)[1..] == xs[1..] + ys;
      ConcatAppend(xs[1..], ys);
    }
  }

  lemma ConcatField(current: string)
    ensures Concat(Field(current)) == current
  {
  }

  // Splitting loses nothing but the separators.
  lemma {:induction false} FieldsKeepEveryCharacter(s: string, current: string)
    ensures Concat(FieldsFrom(s, current)) == current + WithoutSeparators(s)
    decreases |s|
  {
    hide Concat, Field;
    ConcatField(current);
    if s == "" {
    } else if IsSeparator(s[0]) {
      FieldsKeepEveryCharacter(s[1..], "");
      ConcatAppend(Field(current), FieldsFrom(s[1..], ""));
      assert WithoutSeparators(s) == "" + WithoutSeparators(s[1..]);
    } else {
      FieldsKeepEveryCharacter(s[1..], current + [s[0]]);
      assert current + [s[0]] + WithoutSeparators(s[1..]) == current + ([s[0]] + WithoutSeparators(s[1..]));
    }
  }

  lemma {:induction false} FieldsHaveNoSeparator(s: string, current: string)
    requires forall c :: c in current ==> !IsSeparator(c)
    ensures forall f, c :: f in FieldsFrom(s, current) && c in f ==> !IsSeparator(c)
    decreases |s|
  {
    if s != "" {
      FieldsHaveNoSeparator(s[1..], if IsSeparator(s[0]) then "" else current + [s[0]]);
    }
  }

  lemma {:induction false} CleanedAreTerms(fields: seq<string>)
    requires forall f, c :: f in fields && c in f ==> !IsSeparator(c)
    ensures forall t :: t in Clean(fields) ==> IsTerm(t)
  {
    if fields != [] {
      var last := fields[|fields| - 1];
      CleanedAreTerms(fields[..|fields| - 1]);
      TrimIsTrimmed(last);
      assert last in fields;
    }
  }

  lemma TermsAreTerms(s: string)
    ensures forall t :: t in Terms(s) ==> IsTerm(t)
  {
    FieldsHaveNoSeparator(s, "");
    CleanedAreTerms(Fields(s));
  }

  lemma {:induction false} AllTermsAreTerms(values: seq<string>)
    ensures forall t :: t in AllTerms(values) ==> IsTerm(t)
  {
    if values != [] {
      AllTermsAreTerms(values[..|values| - 1]);
      TermsAreTerms(values[|values| - 1]);
    }
  }

  lemma DedupStep(xs: seq<string>, x: string)
    ensures Dedup(xs + [x]) == if x in Dedup(xs) then Dedup(xs) else Dedup(xs) + [x]
  {
    assert (xs + [x])[..|xs|] == xs;
  }

  predicate Distinct(xs: seq<string>) {
    forall i, j :: 0 <= i < j < |xs| ==> xs[i] != xs[j]
  }

  // k is the position of the first occurrence of x in xs.
  predicate FirstAt(xs: seq<string>, x: string, k: nat) {
    k < |xs| && xs[k] == x && x !in xs[..k]
  }

  // Dedup keeps one copy of every element, in the order of first occurrence.
  lemma {:induction false} DedupElements(xs: seq<string>)
    ensures forall x :: x in Dedup(xs) <==> x in xs
  {
    if xs != [] {
      DedupElements(xs[..|xs| - 1]);
      assert xs == xs[..|xs| - 1] + [xs[|xs| - 1]];
    }
  }

  // Deduplication keeps every term once, in the order of first occurrence.
  lemma {:induction false} DedupKeepsFirstOccurrences(xs: seq<string>)
    ensures forall x :: x in Dedup(xs) <==> x in xs
    ensures Distinct(Dedup(xs))
    ensures forall i, j, a, b :: 0 <= i < j < |Dedup(xs)| && FirstAt(xs, Dedup(xs)[i], a) && FirstAt(xs, Dedup(xs)[j], b) ==> a < b
  {
    if xs != [] {
      var init, last := xs[..|xs| - 1], xs[|xs| - 1];
      assert xs == init + [last];
      DedupElements(xs);
      DedupElements(init);
      DedupKeepsFirstOccurrences(init);
      forall i, j, a, b | 0 <= i < j < |Dedup(xs)| && FirstAt(xs, Dedup(xs)[i], a) && FirstAt(xs, Dedup(xs)[j], b)
        ensures a < b
      {
        FirstInPrefix(init, last, Dedup(xs)[i], a);
        if j < |Dedup(init)| {
          FirstInPrefix(init, last, Dedup(xs)[j], b);
        }
      }
    }
  }

  lemma FirstInPrefix(init: seq<string>, last: string, x: string, k: nat)
    requires x in init && FirstAt(init + [last], x, k)
    ensures FirstAt(init, x, k)
  {
    var s := init + [last];
    assert forall j :: 0 <= j < k ==> s[..k][j] == s[j];
    var i :| 0 <= i < |init| && init[i] == x;
    assert s[i] == x;
    assert s[..k] == init[..k];
  }

  lemma {:induction false} DedupOfDistinct(xs: seq<string>)
    requires Distinct(xs)
    ensures Dedup(xs) == xs
  {
    if xs != [] {
      var init := xs[..|xs| - 1];
      DedupOfDistinct(init);
      assert xs == init + [xs[|xs| - 1]];
    }
  }

  lemma {:induction false} DedupAbsorbs(xs: seq<string>, ys: seq<string>)
    ensures Dedup(Dedup(xs) + ys) == Dedup(xs + ys)
  {
    if ys == [] {
      DedupKeepsFirstOccurrences(xs);
      DedupOfDistinct(Dedup(xs));
      assert Dedup(xs) + ys == Dedup(xs) && xs + ys == xs;
    } else {
      var init, last := ys[..|ys| - 1], ys[|ys| - 1];
      DedupAbsorbs(xs, init);
      DedupStep(Dedup(xs) + init, last);
      DedupStep(xs + init, last);
      assert Dedup(xs) + ys == Dedup(xs) + init + [last];
      assert xs + ys == xs + init + [last];
    }
  }

  // ---- The round trip ----

  lemma {:induction false} FieldsSplitAtSeparator(a: string, sep: char, b: string, current: string)
    requires IsSeparator(sep)
    ensures FieldsFrom(a + [sep] + b, current) == FieldsFrom(a, current) + Fields(b)
    decreases |a|
  {
    var s := a + [sep] + b;
    if a == "" {
      assert s == [sep] + b;
    } else {
      assert s[1..] == a[1..] + [sep] + b;
      if IsSeparator(a[0]) {
        FieldsSplitAtSeparator(a[1..], sep, b, "");
      } else {
        FieldsSplitAtSeparator(a[1..], sep, b, current + [a[0]]);
      }
    }
  }

  lemma {:induction false} FieldsOfRun(s: string, current: string)
    requires forall c :: c in s ==> !IsSeparator(c)
    ensures FieldsFrom(s, current) == Field(current + s)
    decreases |s|
  {
    if s == "" {
      assert current + s == current;
    } else {
      FieldsOfRun(s[1..], current + [s[0]]);
      assert current + [s[0]] + s[1..] == current + s;
    }
  }

  lemma AppendAssociates(xs: seq<string>, ys: seq<string>, zs: seq<string>)
    ensures xs + ys + zs == xs + (ys + zs)
  {
  }

  lemma {:induction false} CleanAppend(xs: seq<string>, ys: seq<string>)
    ensures Clean(xs + ys) == Clean(xs) + Clean(ys)
  {
    if ys == [] {
      assert xs + ys == xs;
    } else {
      var init, last := ys[..|ys| - 1], ys[|ys| - 1];
      assert (xs + ys)[..|xs + ys| - 1] == xs + init;
      CleanAppend(xs, init);
      assert Clean(xs + ys) == Clean(xs + init) + Field(Trim(last));
      AppendAssociates(Clean(xs), Clean(init), Field(Trim(last)));
    }
  }

  lemma CleanField(run: string)
    ensures Clean(Field(run)) == Field(Trim(run))
  {
    if run != "" {
      assert Field(run)[..0] == [];
    }
  }

  // A space at the start of a field does not change the terms.
  lemma {:induction false} LeadingSpaceIsIgnored(s: string, current: string)
    ensures Clean(FieldsFrom(s, [' '] + current)) == Clean(FieldsFrom(s, current))
    decreases |s|
  {
    TrimDropsLeadingSpace(current);
    CleanField([' '] + current);
    CleanField(current);
    if s != "" {
      if IsSeparator(s[0]) {
        var rest := FieldsFrom(s[1..], "");
        CleanAppend(Field([' '] + current), rest);
        CleanAppend(Field(current), rest);
        assert FieldsFrom(s, [' '] + current) == Field([' '] + current) + rest;
      } else {
        var next := current + [s[0]];
        LeadingSpaceIsIgnored(s[1..], next);
        assert [' '] + current + [s[0]] == [' '] + next;
        assert FieldsFrom(s, [' '] + current) == FieldsFrom(s[1..], [' '] + next);
      }
    }
  }

  lemma TermsOfTerm(t: string)
    requires IsTerm(t)
    ensures Terms(t) == [t]
  {
    FieldsOfRun(t, "");
    assert "" + t == t;
    CleanField(t);
    TrimmedIsFixed(t);
  }

  lemma SpacedTerms(rest: string)
    ensures Terms([' '] + rest) == Terms(rest)
  {
    hide Clean;
    var spaced := [' '] + rest;
    assert spaced[1..] == rest;
    assert "" + [' '] == [' '] + "";
    assert Fields(spaced) == FieldsFrom(rest, [' '] + "");
    LeadingSpaceIsIgnored(rest, "");
  }

  lemma TermsOfPair(first: string, rest: string)
    requires IsTerm(first)
    ensures Terms(first + ", " + rest) == [first] + Terms(rest)
  {
    hide IsTerm, IsSeparator, FieldsFrom, Clean;
    var spaced := [' '] + rest;
    assert first + ", " + rest == first + [','] + spaced;
    CommaSeparates();
    FieldsSplitAtSeparator(first, ',', spaced, "");
    CleanAppend(Fields(first), Fields(spaced));
    TermsOfTerm(first);
    SpacedTerms(rest);
  }

  lemma CommaSeparates()
    ensures IsSeparator(',')
  {
  }

  // Parsing what Join printed gives the items back.
  lemma {:induction false} TermsOfJoin(items: seq<string>)
    requires forall t :: t in items ==> IsTerm(t)
    ensures Terms(Join(items)) == items
  {
    if items == [] {
    } else if |items| == 1 {
      TermsOfTerm(items[0]);
    } else {
      assert items[0] in items;
      TermsOfJoin(items[1..]);
      TermsOfPair(items[0], Join(items[1..]));
    }
  }

  lemma JoinedTerms(values: seq<string>)
    ensures Terms(JoinedNegatives(values)) == Dedup(AllTerms(values))
  {
    AllTermsAreTerms(values);
    DedupElements(AllTerms(values));
    TermsOfJoin(Dedup(AllTerms(values)));
  }

  lemma {:induction false} AllTermsAppend(xs: seq<string>, ys: seq<string>)
    ensures AllTerms(xs + ys) == AllTerms(xs) + AllTerms(ys)
  {
    if ys == [] {
      assert xs + ys == xs;
    } else {
      var init, last := ys[..|ys| - 1], ys[|ys| - 1];
      assert (xs + ys)[..|xs + ys| - 1] == xs + init;
      AllTermsAppend(xs, init);
      assert AllTerms(xs + ys) == AllTerms(xs + init) + Terms(last);
      AppendAssociates(AllTerms(xs), AllTerms(init), Terms(last));
    }
  }

  // An already joined prompt can stand for the prompts it was joined from.
  lemma JoinAbsorbsNesting(xs: seq<string>, ys: seq<string>)
    ensures JoinedNegatives([JoinedNegatives(xs)] + ys) == JoinedNegatives(xs + ys)
  {
    var j := JoinedNegatives(xs);
    JoinedTerms(xs);
    AllTermsAppend([j], ys);
    assert [j][..0] == [];
    assert AllTerms([j]) == Dedup(AllTerms(xs));
    AllTermsAppend(xs, ys);
    DedupAbsorbs(AllTerms(xs), AllTerms(ys));
  }

  lemma JoinIsIdempotent(values: seq<string>)
    ensures JoinedNegatives([JoinedNegatives(values)]) == JoinedNegatives(values)
  {
    JoinAbsorbsNesting(values, []);
    assert values + [] == values;
    assert [JoinedNegatives(values)] + [] == [JoinedNegatives(values)];
  }

  // Comma, semicolon, newline, and the full-width comma and semicolon.
  const SEPARATORS := ",;\n\U{FF0C}\U{FF1B}"

  lemma SeparatorIff(c: char)
    ensures IsSeparator(c) <==> c in SEPARATORS
  {
    assert c in SEPARATORS <==> exists i :: 0 <= i < 5 && SEPARATORS[i] == c;
  }

  // A separator splits a text into what is before and after it; any other
  // character between two letters splits nothing.
  lemma SeparatorsSplit(a: string, c: char, b: string)
    ensures c in SEPARATORS ==> Terms(a + [c] + b) == Terms(a) + Terms(b)
    ensures c !in SEPARATORS ==> Terms(['x', c, 'y']) == [['x', c, 'y']]
  {
    SeparatorIff(c);
    if IsSeparator(c) {
      FieldsSplitAtSeparator(a, c, b, "");
      CleanAppend(Fields(a), Fields(b));
    } else {
      TermsOfTerm(['x', c, 'y']);
    }
  }
}
