/** The context-graph factory: flattens the supplied property sets, links each
    entry to the keys its value references, adds the edges of the optional
    transformation rule, and pushes every dependency into a fresh graph. */
module ContextGraphFactory {
  import opened Failures
  import opened Properties
  import opened Extraction
  import opened Transformation
  import opened ContextGraphs

  /** A key together with the keys it depends on. */
  datatype DirectionalProperty = DirectionalProperty(key: string, depends: set<string>)

  /** The record the transformation rule adds for a matching key: the derived
      key depends on the key it is derived from. */
  function DerivedRecord(rule: Rule, key: string): DirectionalProperty {
    DirectionalProperty(rule.transform(key), {key})
  }

  /** The edges a list of records stands for, one per (record, dependency). */
  function RecordEdges(records: seq<DirectionalProperty>): set<Edge> {
    set i, d | 0 <= i < |records| && d in records[i].depends :: (records[i].key, d)
  }

  /** Reference definition: each entry's key depends on every key its value references. */
  ghost function ExtractedEdges(opts: Options, refs: seq<Reference>): set<Edge> {
    set i, t | 0 <= i < |refs| && t in TokenSet(opts, refs[i].value) :: (refs[i].key, t)
  }

  /** Reference definition: each entry key the rule matches is depended on by its derived key. */
  ghost function TransformEdges(rule: Option<Rule>, refs: seq<Reference>): set<Edge> {
    if rule.None? then {}
    else set i | 0 <= i < |refs| && rule.value.matches(refs[i].key) :: (rule.value.transform(refs[i].key), refs[i].key)
  }

  /** Every value has the configured group in each of its matches. */
  predicate AllGroupsPresent(opts: Options, refs: seq<Reference>) {
    forall i :: 0 <= i < |refs| ==> GroupPresent(opts, refs[i].value)
  }

  /** One dependency record per entry, in entry order, keyed by the entry's
      key; only the value is scanned. Fails as soon as a value has a match
      without the configured group. */
  function Link(opts: Options, refs: seq<Reference>): (r: Result<seq<DirectionalProperty>>)
    ensures r.Success? <==> AllGroupsPresent(opts, refs)
    ensures r.Failure? ==> r.error == NoGroup(opts.group)
    ensures r.Success? ==> |r.value| == |refs|
    ensures r.Success? ==> forall i :: 0 <= i < |refs| ==>
      r.value[i].key == refs[i].key && r.value[i].depends == TokenSet(opts, refs[i].value)
    decreases |refs|
  {
    if |refs| == 0 then Success([])
    else
      var depends :- ExtractTokens(opts, refs[0].value);
      var rest :- Link(opts, refs[1..]);
      Success([DirectionalProperty(refs[0].key, depends)] + rest)
  }

  /** The records the transformation rule adds: the record (transform(k), {k})
      for each entry key k the rule matches, and none without a rule. */
  function Derive(rule: Option<Rule>, refs: seq<Reference>): (r: seq<DirectionalProperty>)
    ensures rule.None? ==> r == []
    ensures |r| <= |refs|
    ensures forall d :: d in r ==> (rule.Some? &&
      exists i :: 0 <= i < |refs| && rule.value.matches(refs[i].key) && d == DerivedRecord(rule.value, refs[i].key))
    ensures rule.Some? ==> forall i :: 0 <= i < |refs| && rule.value.matches(refs[i].key) ==>
      DerivedRecord(rule.value, refs[i].key) in r
    decreases |refs|
  {
    if rule.None? || |refs| == 0 then []
    else
      var rest := Derive(rule, refs[1..]);
      assert forall i :: 1 <= i < |refs| ==> refs[i] == refs[1..][i - 1];
      if rule.value.matches(refs[0].key) then [DerivedRecord(rule.value, refs[0].key)] + rest else rest
  }

  /** The edges of two record lists pushed one after the other. */
  lemma RecordEdgesAppend(a: seq<DirectionalProperty>, b: seq<DirectionalProperty>)
    ensures RecordEdges(a + b) == RecordEdges(a) + RecordEdges(b)
  {
    var ab := a + b;
    forall e | e in RecordEdges(ab) ensures e in RecordEdges(a) + RecordEdges(b) {
      var i, d :| 0 <= i < |ab| && d in ab[i].depends && e == (ab[i].key, d);
      if i >= |a| {
        assert ab[i] == b[i - |a|];
      }
    }
    forall e | e in RecordEdges(b) ensures e in RecordEdges(ab) {
      var i, d :| 0 <= i < |b| && d in b[i].depends && e == (b[i].key, d);
      assert ab[|a| + i] == b[i];
    }
    forall e | e in RecordEdges(a) ensures e in RecordEdges(ab) {
      var i, d :| 0 <= i < |a| && d in a[i].depends && e == (a[i].key, d);
      assert ab[i] == a[i];
    }
  }

  /** Pushing the linked records adds exactly the extracted edges. */
  lemma LinkEdges(opts: Options, refs: seq<Reference>)
    requires AllGroupsPresent(opts, refs)
    ensures RecordEdges(Link(opts, refs).value) == ExtractedEdges(opts, refs)
  {
  }

  /** Pushing the derived records adds exactly the transformation edges. */
  lemma DeriveEdges(rule: Option<Rule>, refs: seq<Reference>)
    ensures RecordEdges(Derive(rule, refs)) == TransformEdges(rule, refs)
  {
    var records := Derive(rule, refs);
    forall e | e in RecordEdges(records) ensures e in TransformEdges(rule, refs) {
      var i, d :| 0 <= i < |records| && d in records[i].depends && e == (records[i].key, d);
      assert records[i] in records;
    }
    if rule.Some? {
      forall e | e in TransformEdges(rule, refs) ensures e in RecordEdges(records) {
        var i :| 0 <= i < |refs| && rule.value.matches(refs[i].key) && e == (rule.value.transform(refs[i].key), refs[i].key);
        var d := DerivedRecord(rule.value, refs[i].key);
        assert d in records;
        var j :| 0 <= j < |records| && records[j] == d;
        assert refs[i].key in records[j].depends;
      }
    }
  }

  /** What building the graph from these property sets yields: with no array
      at all, an empty graph; otherwise the first null property set or the
      first missing capture group aborts the build. */
  function Build(opts: Options, rule: Option<Rule>, sets: Option<seq<Option<PropertySet>>>): (r: Result<ContextGraph>)
    ensures sets.None? || sets == Some([]) ==> r == Success(Empty)
    ensures sets.Some? && Flatten(sets.value).Failure? ==> r == Failure(Flatten(sets.value).error)
    ensures sets.Some? && Flatten(sets.value).Success? ==>
      && (r.Success? <==> AllGroupsPresent(opts, Flatten(sets.value).value))
      && (r.Failure? ==> r.error == NoGroup(opts.group))
  {
    if sets.None? then Success(Empty)
    else
      var refs :- Flatten(sets.value);
      var records :- Link(opts, refs);
      assert refs == [] ==> records + Derive(rule, refs) == [];
      assert RecordEdges([]) == {};
      Success(ContextGraph(RecordEdges(records + Derive(rule, refs))))
  }

  /** Every supplied property set is present and every match of every value
      has the configured group. */
  predicate Buildable(opts: Options, sets: seq<Option<PropertySet>>) {
    forall i :: 0 <= i < |sets| ==> sets[i].Some? && AllGroupsPresent(opts, sets[i].value)
  }

  /** The build returns a graph exactly when the sets are buildable. */
  lemma BuildSucceeds(opts: Options, rule: Option<Rule>, sets: seq<Option<PropertySet>>)
    ensures Build(opts, rule, Some(sets)).Success? <==> Buildable(opts, sets)
  {
    var f := Flatten(sets);
    if f.Success? {
      var refs := f.value;
      if AllGroupsPresent(opts, refs) {
        forall i | 0 <= i < |sets| ensures AllGroupsPresent(opts, sets[i].value) {
          forall j | 0 <= j < |sets[i].value| ensures GroupPresent(opts, sets[i].value[j].value) {
            var e := sets[i].value[j];
            assert e in refs;
            var k :| 0 <= k < |refs| && refs[k] == e;
          }
        }
      }
      if Buildable(opts, sets) {
        forall k | 0 <= k < |refs| ensures GroupPresent(opts, refs[k].value) {
          assert refs[k] in refs;
          var i :| 0 <= i < |sets| && sets[i].Some? && refs[k] in sets[i].value;
          var j :| 0 <= j < |sets[i].value| && sets[i].value[j] == refs[k];
        }
      }
    } else {
      var i :| 0 <= i < |sets| && sets[i].None?;
    }
  }

  /** A successful build holds the extracted edges and the transformation
      edges, and nothing else. */
  lemma BuildEdges(opts: Options, rule: Option<Rule>, sets: seq<Option<PropertySet>>)
    requires Buildable(opts, sets)
    ensures Flatten(sets).Success? && Build(opts, rule, Some(sets)).Success?
    ensures Build(opts, rule, Some(sets)).value.edges
         == ExtractedEdges(opts, Flatten(sets).value) + TransformEdges(rule, Flatten(sets).value)
  {
    BuildSucceeds(opts, rule, sets);
    var refs := Flatten(sets).value;
    var records := Link(opts, refs).value;
    LinkEdges(opts, refs);
    DeriveEdges(rule, refs);
    RecordEdgesAppend(records, Derive(rule, refs));
  }

  /** A single record stands for the edges from its key to each dependency. */
  lemma SingleRecordEdges(record: DirectionalProperty)
    ensures RecordEdges([record]) == set d | d in record.depends :: (record.key, d)
  {
    var rs := [record];
    assert forall e :: e in RecordEdges(rs) ==> e in set d | d in record.depends :: (record.key, d);
    forall e | e in set d | d in record.depends :: (record.key, d) ensures e in RecordEdges(rs) {
      assert rs[0] == record;
    }
  }

  /** The accept loop: for every record and every key it depends on, the
      graph accepts (record key, dependency); the graph only grows. */
  method Push(g: ContextGraph, records: seq<DirectionalProperty>) returns (h: ContextGraph)
    ensures h.edges == g.edges + RecordEdges(records)
  {
    h := g;
    for i := 0 to |records|
      invariant h.edges == g.edges + RecordEdges(records[..i])
    {
      var record := records[i];
      var pending := record.depends;
      while pending != {}
        invariant pending <= record.depends
        invariant h.edges == g.edges + RecordEdges(records[..i]) + set d | d in record.depends - pending :: (record.key, d)
        decreases pending
      {
        var dependency :| dependency in pending;
        h := Accept(h, record.key, dependency);
        pending := pending - {dependency};
      }
      SingleRecordEdges(record);
      assert records[..i + 1] == records[..i] + [record];
      RecordEdgesAppend(records[..i], [record]);
    }
    assert records[..|records|] == records;
  }

  /** The factory's make operation, step by step: flatten, link, derive, then
      accept every dependency into a fresh graph. */
  method Make(opts: Options, rule: Option<Rule>, sets: Option<seq<Option<PropertySet>>>) returns (r: Result<ContextGraph>)
    ensures r == Build(opts, rule, sets)
  {
    var graph := Empty;
    if sets.Some? {
      var refs :- Flatten(sets.value);
      var records :- Link(opts, refs);
      var derived := Derive(rule, refs);
      var all := records + derived;
      graph := Push(graph, all);
      assert graph == ContextGraph(RecordEdges(all));
    }
    return Success(graph);
  }
}
