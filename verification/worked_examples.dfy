/** Worked examples with a concrete tokenizer: references written as
    `${name}`, the name being capture group 1. */
module Examples {
  import opened Failures
  import opened Properties
  import opened Extraction
  import opened Transformation
  import opened ContextGraphs
  import opened ContextGraphFactory

  /** Position of the first `}` at or after position i, if any. */
  function CloseAt(s: string, i: nat): (r: Option<nat>)
    ensures r.Some? ==> i <= r.value < |s| && s[r.value] == '}' && forall k :: i <= k < r.value ==> s[k] != '}'
    ensures r.None? ==> forall k :: i <= k < |s| ==> s[k] != '}'
    decreases |s| - i
  {
    if i >= |s| then None
    else if s[i] == '}' then Some(i)
    else CloseAt(s, i + 1)
  }

  /** The successive matches of `\$\{([^}]*)\}` in s, each as [whole match, name]. */
  function References(s: string): (r: seq<Match>)
    ensures forall m :: m in r ==> |m| == 2 && '}' !in m[1]
    decreases |s|
  {
    if |s| < 2 then []
    else if s[0] == '$' && s[1] == '{' then
      match CloseAt(s, 2)
      case Some(j) => [[s[..j + 1], s[2..j]]] + References(s[j + 1..])
      case None => References(s[1..])
    else References(s[1..])
  }

  /** The reference `${c}` to the one-character key c. */
  function Ref(c: char): string {
    ['$', '{', c, '}']
  }

  /** A value that starts with a one-character reference. */
  lemma OneReference(c: char, tail: string)
    requires c != '}'
    ensures References(Ref(c) + tail) == [[Ref(c), [c]]] + References(tail)
  {
    var s := Ref(c) + tail;
    assert s[2] == c && s[3] == '}';
    assert CloseAt(s, 3) == Some(3);
    assert CloseAt(s, 2) == Some(3);
    assert s[..4] == Ref(c) && s[2..3] == [c] && s[4..] == tail;
  }

  /** Building from one property set: its extracted and derived edges. */
  lemma SingleSet(opts: Options, rule: Option<Rule>, p: PropertySet)
    requires AllGroupsPresent(opts, p)
    ensures Build(opts, rule, Some([Some(p)])) == Success(ContextGraph(ExtractedEdges(opts, p) + TransformEdges(rule, p)))
  {
    assert Flatten([Some(p)]) == Success(p) by {
      assert [Some(p)][..0] == [];
    }
    BuildEdges(opts, rule, [Some(p)]);
  }

  /** Extraction of `${name}` references: the name is capture group 1. */
  const Dollar := Options(References, 1)

  lemma TokensNone()
    ensures TokenSet(Dollar, "1") == {}
  {
    assert References("1") == [];
  }

  /** A value that is one reference depends on exactly that key. */
  lemma SingleReferenceTokens(c: char)
    requires c != '}'
    ensures TokenSet(Dollar, Ref(c)) == {[c]}
  {
    OneReference(c, []);
    assert Ref(c) + [] == Ref(c);
    OneMatch(Dollar, Ref(c), [Ref(c), [c]]);
  }

  /** The dependency set of a value with exactly one match. */
  lemma OneMatch(opts: Options, value: string, m0: Match)
    requires opts.find(value) == [m0] && HasGroup(m0, opts.group)
    ensures TokenSet(opts, value) == {m0[opts.group]}
  {
    assert forall m :: m in opts.find(value) <==> m == m0;
  }

  lemma TokensAB()
    ensures TokenSet(Dollar, Ref('a') + Ref('b')) == {"a", "b"}
  {
    OneReference('b', []);
    assert Ref('b') + [] == Ref('b');
    OneReference('a', Ref('b'));
    TwoMatches(Dollar, Ref('a') + Ref('b'), [Ref('a'), "a"], [Ref('b'), "b"]);
  }

  /** The dependency set of a value with exactly two matches. */
  lemma TwoMatches(opts: Options, value: string, m0: Match, m1: Match)
    requires opts.find(value) == [m0, m1] && HasGroup(m0, opts.group) && HasGroup(m1, opts.group)
    ensures TokenSet(opts, value) == {m0[opts.group], m1[opts.group]}
  {
    assert forall m :: m in opts.find(value) <==> m == m0 || m == m1;
  }

  /** The property set a=1, b=${a}, c=${a}${b}. */
  const Chain: PropertySet := [Reference("a", "1"), Reference("b", Ref('a')), Reference("c", Ref('a') + Ref('b'))]

  lemma ChainGroups()
    ensures AllGroupsPresent(Dollar, Chain)
  {
  }

  /** The edges one entry of the chain contributes. */
  lemma ChainEntry(i: nat, t: string)
    requires i < |Chain|
    ensures t in TokenSet(Dollar, Chain[i].value) <==> (Chain[i].key, t) in {("b", "a"), ("c", "a"), ("c", "b")}
  {
    if i == 0 {
      TokensNone();
      assert Chain[0].value == "1";
    } else if i == 1 {
      SingleReferenceTokens('a');
      assert Chain[1].value == Ref('a');
    } else {
      TokensAB();
      assert Chain[2].value == Ref('a') + Ref('b');
    }
  }

  lemma ChainEdges()
    ensures ExtractedEdges(Dollar, Chain) == {("b", "a"), ("c", "a"), ("c", "b")}
  {
    var edges := ExtractedEdges(Dollar, Chain);
    forall e | e in edges ensures e in {("b", "a"), ("c", "a"), ("c", "b")} {
      var i, t :| 0 <= i < |Chain| && t in TokenSet(Dollar, Chain[i].value) && e == (Chain[i].key, t);
      ChainEntry(i, t);
    }
    ChainEntry(1, "a");
    ChainEntry(2, "a");
    ChainEntry(2, "b");
  }

  /** a=1, b=${a}, c=${a}${b}: b depends on a, c on a and b, and nothing else. */
  lemma ChainedReferences()
    ensures Build(Dollar, None, Some([Some(Chain)])) == Success(ContextGraph({("b", "a"), ("c", "a"), ("c", "b")}))
  {
    ChainBuild();
    ChainGraph();
  }

  lemma ChainBuild()
    ensures Build(Dollar, None, Some([Some(Chain)])) == Success(ContextGraph(ExtractedEdges(Dollar, Chain) + TransformEdges(None, Chain)))
  {
    ChainGroups();
    SingleSet(Dollar, None, Chain);
  }

  lemma ChainGraph()
    ensures ContextGraph(ExtractedEdges(Dollar, Chain) + TransformEdges(None, Chain)) == ContextGraph({("b", "a"), ("c", "a"), ("c", "b")})
  {
    ChainEdges();
  }

  /** The property set x.format=${y}. */
  const Format: PropertySet := [Reference("x.format", Ref('y'))]

  const FormatRule := SuffixRule(".format")

  lemma FormatMatches()
    ensures FormatRule.matches("x.format") && FormatRule.transform("x.format") == "x"
  {
    assert "x.format"[1..] == ".format";
    assert "x.format"[..1] == "x";
  }

  lemma FormatEdges()
    ensures AllGroupsPresent(Dollar, Format)
    ensures ExtractedEdges(Dollar, Format) == {("x.format", "y")}
    ensures TransformEdges(Some(FormatRule), Format) == {("x", "x.format")}
  {
    SingleReferenceTokens('y');
    FormatMatches();
    assert Format[0].value == Ref('y') && Format[0].key == "x.format";
    assert ("x.format", "y") in ExtractedEdges(Dollar, Format) by {
      assert "y" in TokenSet(Dollar, Format[0].value);
    }
  }

  /** x.format=${y} under the rule that strips the suffix ".format": besides
      x.format -> y, the derived key gets x -> x.format. */
  lemma DerivedKeyExample()
    ensures Build(Dollar, Some(FormatRule), Some([Some(Format)]))
         == Success(ContextGraph({("x.format", "y"), ("x", "x.format")}))
  {
    FormatBuild();
    FormatGraph();
  }

  lemma FormatBuild()
    ensures Build(Dollar, Some(FormatRule), Some([Some(Format)]))
         == Success(ContextGraph(ExtractedEdges(Dollar, Format) + TransformEdges(Some(FormatRule), Format)))
  {
    FormatEdges();
    SingleSet(Dollar, Some(FormatRule), Format);
  }

  lemma FormatGraph()
    ensures ContextGraph(ExtractedEdges(Dollar, Format) + TransformEdges(Some(FormatRule), Format))
         == ContextGraph({("x.format", "y"), ("x", "x.format")})
  {
    FormatEdges();
  }
}
