/** Properties of the graph the factory builds, stated over the property sets
    the caller supplies. */
module GraphProperties {
  import opened Failures
  import opened Properties
  import opened Extraction
  import opened Transformation
  import opened ContextGraphs
  import opened ContextGraphFactory

  /** An entry's key depends, in the built graph, on every key its value references. */
  lemma EveryEntryContributes(opts: Options, rule: Option<Rule>, sets: seq<Option<PropertySet>>, i: nat, e: Reference)
    requires Buildable(opts, sets)
    requires i < |sets| && e in sets[i].value
    ensures Build(opts, rule, Some(sets)).Success?
    ensures forall t :: t in TokenSet(opts, e.value) ==> (e.key, t) in Build(opts, rule, Some(sets)).value.edges
  {
    BuildEdges(opts, rule, sets);
    var refs := Flatten(sets).value;
    assert e in refs;
    var j :| 0 <= j < |refs| && refs[j] == e;
    forall t | t in TokenSet(opts, e.value) ensures (e.key, t) in ExtractedEdges(opts, refs) {
      assert t in TokenSet(opts, refs[j].value);
    }
  }

  /** The same key in two property sets: its dependencies are the union of
      both entries' references; the second set does not overwrite the first. */
  lemma DuplicateKeysUnion(opts: Options, rule: Option<Rule>, p1: PropertySet, p2: PropertySet, key: string, v1: string, v2: string)
    requires Reference(key, v1) in p1 && Reference(key, v2) in p2
    requires Buildable(opts, [Some(p1), Some(p2)])
    ensures Build(opts, rule, Some([Some(p1), Some(p2)])).Success?
    ensures forall t :: t in TokenSet(opts, v1) + TokenSet(opts, v2) ==>
      (key, t) in Build(opts, rule, Some([Some(p1), Some(p2)])).value.edges
  {
    var sets := [Some(p1), Some(p2)];
    EveryEntryContributes(opts, rule, sets, 0, Reference(key, v1));
    EveryEntryContributes(opts, rule, sets, 1, Reference(key, v2));
  }

  /** A value that references its own key yields the edge key -> key; it is
      passed on to the graph, not filtered. */
  lemma SelfReferenceKept(opts: Options, rule: Option<Rule>, sets: seq<Option<PropertySet>>, i: nat, e: Reference)
    requires Buildable(opts, sets)
    requires i < |sets| && e in sets[i].value
    requires e.key in TokenSet(opts, e.value)
    ensures Build(opts, rule, Some(sets)).Success?
    ensures (e.key, e.key) in Build(opts, rule, Some(sets)).value.edges
  {
    EveryEntryContributes(opts, rule, sets, i, e);
  }

  /** An entry whose value the pattern does not match contributes no
      extracted edge: removing it leaves the extracted edges unchanged. */
  lemma NoMatchNoEdges(opts: Options, refs: seq<Reference>, i: nat)
    requires i < |refs| && opts.find(refs[i].value) == []
    ensures ExtractedEdges(opts, refs) == ExtractedEdges(opts, refs[..i] + refs[i + 1..])
  {
    var rest := refs[..i] + refs[i + 1..];
    assert TokenSet(opts, refs[i].value) == {};
    forall e | e in ExtractedEdges(opts, refs) ensures e in ExtractedEdges(opts, rest) {
      var j, t :| 0 <= j < |refs| && t in TokenSet(opts, refs[j].value) && e == (refs[j].key, t);
      if j < i {
        assert rest[j] == refs[j];
      } else {
        assert rest[j - 1] == refs[j];
      }
    }
    forall e | e in ExtractedEdges(opts, rest) ensures e in ExtractedEdges(opts, refs) {
      var j, t :| 0 <= j < |rest| && t in TokenSet(opts, rest[j].value) && e == (rest[j].key, t);
      if j < i {
        assert rest[j] == refs[j];
      } else {
        assert rest[j] == refs[j + 1];
      }
    }
  }

  /** Without a transformation rule the graph holds only extracted edges;
      with one, it adds exactly the rule's edges over the entry keys. */
  lemma RuleAddsOnlyDerivedEdges(opts: Options, rule: Rule, sets: seq<Option<PropertySet>>)
    requires Buildable(opts, sets)
    ensures Build(opts, None, Some(sets)).Success? && Build(opts, Some(rule), Some(sets)).Success?
    ensures Build(opts, Some(rule), Some(sets)).value.edges
         == Build(opts, None, Some(sets)).value.edges + TransformEdges(Some(rule), Flatten(sets).value)
    ensures Build(opts, None, Some(sets)).value.edges == ExtractedEdges(opts, Flatten(sets).value)
  {
    BuildEdges(opts, None, sets);
    BuildEdges(opts, Some(rule), sets);
  }

  /** The entries of a list, regardless of position. */
  ghost predicate SameEntries(refs1: seq<Reference>, refs2: seq<Reference>) {
    forall e :: e in refs1 <==> e in refs2
  }

  /** Which edges are extracted and derived depends only on which entries are
      present, not on their order or repetition. */
  lemma {:induction false} SameEntriesSameEdges(opts: Options, rule: Option<Rule>, refs1: seq<Reference>, refs2: seq<Reference>)
    requires SameEntries(refs1, refs2)
    ensures AllGroupsPresent(opts, refs1) <==> AllGroupsPresent(opts, refs2)
    ensures ExtractedEdges(opts, refs1) == ExtractedEdges(opts, refs2)
    ensures TransformEdges(rule, refs1) == TransformEdges(rule, refs2)
  {
    SubsetEdges(opts, rule, refs1, refs2);
    SubsetEdges(opts, rule, refs2, refs1);
  }

  lemma {:induction false} SubsetEdges(opts: Options, rule: Option<Rule>, refs1: seq<Reference>, refs2: seq<Reference>)
    requires forall e :: e in refs1 ==> e in refs2
    ensures AllGroupsPresent(opts, refs2) ==> AllGroupsPresent(opts, refs1)
    ensures ExtractedEdges(opts, refs1) <= ExtractedEdges(opts, refs2)
    ensures TransformEdges(rule, refs1) <= TransformEdges(rule, refs2)
  {
    if AllGroupsPresent(opts, refs2) {
      forall i | 0 <= i < |refs1| ensures GroupPresent(opts, refs1[i].value) {
        assert refs1[i] in refs2;
        var j :| 0 <= j < |refs2| && refs2[j] == refs1[i];
      }
    }
    forall e | e in ExtractedEdges(opts, refs1) ensures e in ExtractedEdges(opts, refs2) {
      var i, t :| 0 <= i < |refs1| && t in TokenSet(opts, refs1[i].value) && e == (refs1[i].key, t);
      assert refs1[i] in refs2;
      var j :| 0 <= j < |refs2| && refs2[j] == refs1[i];
      assert t in TokenSet(opts, refs2[j].value);
    }
    if rule.Some? {
      forall e | e in TransformEdges(rule, refs1) ensures e in TransformEdges(rule, refs2) {
        var i :| 0 <= i < |refs1| && rule.value.matches(refs1[i].key) && e == (rule.value.transform(refs1[i].key), refs1[i].key);
        assert refs1[i] in refs2;
        var j :| 0 <= j < |refs2| && refs2[j] == refs1[i];
      }
    }
  }

  /** The build is deterministic up to the order of the property sets: any
      rearrangement of the same sets succeeds or fails alike and, on success,
      yields the same graph. */
  lemma SetOrderIrrelevant(opts: Options, rule: Option<Rule>, sets1: seq<Option<PropertySet>>, sets2: seq<Option<PropertySet>>)
    requires multiset(sets1) == multiset(sets2)
    ensures Build(opts, rule, Some(sets1)).Success? <==> Build(opts, rule, Some(sets2)).Success?
    ensures Build(opts, rule, Some(sets1)).Success? ==> Build(opts, rule, Some(sets1)) == Build(opts, rule, Some(sets2))
  {
    assert forall x :: x in sets1 <==> x in sets2 by {
      forall x ensures x in sets1 <==> x in sets2 {
        assert x in sets1 <==> x in multiset(sets1);
        assert x in sets2 <==> x in multiset(sets2);
      }
    }
    BuildSucceeds(opts, rule, sets1);
    BuildSucceeds(opts, rule, sets2);
    BuildableByMembers(opts, sets1, sets2);
    BuildableByMembers(opts, sets2, sets1);
    if Buildable(opts, sets1) {
      var f1, f2 := Flatten(sets1), Flatten(sets2);
      BuildEdges(opts, rule, sets1);
      BuildEdges(opts, rule, sets2);
      forall e ensures e in f1.value <==> e in f2.value {
        if e in f1.value {
          var i :| 0 <= i < |sets1| && sets1[i].Some? && e in sets1[i].value;
          assert sets1[i] in sets2;
        }
        if e in f2.value {
          var i :| 0 <= i < |sets2| && sets2[i].Some? && e in sets2[i].value;
          assert sets2[i] in sets1;
        }
      }
      SameEntriesSameEdges(opts, rule, f1.value, f2.value);
    }
  }

  lemma BuildableByMembers(opts: Options, sets1: seq<Option<PropertySet>>, sets2: seq<Option<PropertySet>>)
    requires forall x :: x in sets2 ==> x in sets1
    ensures Buildable(opts, sets1) ==> Buildable(opts, sets2)
  {
    if Buildable(opts, sets1) {
      forall i | 0 <= i < |sets2| ensures sets2[i].Some? && AllGroupsPresent(opts, sets2[i].value) {
        assert sets2[i] in sets1;
        var j :| 0 <= j < |sets1| && sets1[j] == sets2[i];
      }
    }
  }
}
