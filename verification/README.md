# Context-graph factory, modelled in Dafny

A model of `ContextGraphFactory` from fenxlib-graphrunner. The factory turns
key/value property sets into a directed dependency graph. A property value
may reference other keys: `build.version.format=${major.version}.${minor.version}`
makes `build.version.format` depend on `major.version` and `minor.version`.
An optional transformation rule adds a second kind of edge. For every entry key
the rule matches, the derived key `transform(key)` depends on that key: the
value of `build.version` is produced by evaluating `build.version.format`.

The `make` operation works in four steps:
1. It flattens all property sets into one list of reference properties. Keys may repeat across sets.
2. It links each entry to the set of keys its value references. This gives one directional property per entry.
3. If a rule is configured, it adds one derived record per matching entry key.
4. It pushes every (record key, dependency) pair into a fresh graph through `accept`.

Files:
- `failures.dfy` (module `Failures`): the exceptions `make` can throw, as `Error`, and the `Result`/`Option` types.
- `properties.dfy` (module `Properties`): reference properties, property sets with unique keys, and flattening.
- `extraction.dfy` (module `Extraction`): the extraction options and the per-value find loop.
- `transformation.dfy` (module `Transformation`): the transformation rule, plus a suffix-stripping instance.
- `graph.dfy` (module `ContextGraphs`): the graph, seen only through `accept`.
- `factory.dfy` (module `ContextGraphFactory`): `link`, the derived records, the accept loop and `make`. `Build` is the declarative reference for `make`; the `Make` method follows the Java loops and is proved equal to it.
- `graph_properties.dfy` (module `GraphProperties`): properties of the built graph over the caller's property sets.
- `worked_examples.dfy` (module `Examples`): a concrete `${name}` tokenizer and two worked examples.

Data model:
- `Properties.Reference` is the inner record `ReferenceProperty` (ContextGraphFactory.java:100-108): a key and its raw value.
- `ContextGraphFactory.DirectionalProperty` is the inner record `DirectionalProperty` (ContextGraphFactory.java:110-117): a key and the set of keys it depends on. Its `HashSet` is a `set<string>`.
- `Extraction.Options` stands for `VariableExtractionOptions`: the matches of the tokenizer pattern and the group index, an `int` as in the constructor at ContextGraphFactory.java:22.
- `Transformation.Rule` stands for `VariableTransformationRule`: the `matches` predicate and the `transform` mapping.
- `ContextGraphs.ContextGraph` stands for `ContextGraph`, seen only through `accept`.

Modelling choices:
- The tokenizer pattern is an abstract function `find` from a value to its successive matches. Each match is the list of its capture-group texts, with group 0 the whole match.
- `m.group(g)` throws when `g` is negative or above the pattern's group count. The model keeps the index an `int` and returns `Failure(NoGroup(g))` when some match has no group `g`. The failure happens only once a value has a match; `make` does no check up front.
- `make(null)` is `None` and yields an empty graph. A null element inside the array makes `addResolvingProperties` throw. The model returns `Failure(NullPropertySet(i))` for the first such index `i`.
- A property set is a sequence of entries with unique keys. The sequence order stands for the enumeration order of `stringPropertyNames`.
- The graph is a set of `(dependent, dependency)` edges. `accept` inserts one edge.
- Self-references are not filtered: a value that references its own key yields the edge `key -> key` (`SelfReferenceKept`).

## Model

| member | source | states |
|---|---|---|
| Properties.AddResolvingProperties | src/main/java/com/legyver/fenxlib/graphrunner/ContextGraphFactory.java:94-98 | the collected list keeps its old prefix and gains every entry of the set, in order |
| Properties.Flatten | src/main/java/com/legyver/fenxlib/graphrunner/ContextGraphFactory.java:47-49 | fails exactly when the array holds a null set, naming the first one; otherwise it keeps every entry of every set with no deduplication (its length is the total size), and an entry is in the result iff it is in one of the sets |
| Properties.FlattenKeepsOrder | src/main/java/com/legyver/fenxlib/graphrunner/ContextGraphFactory.java:48-49 | the j-th entry of the i-th set sits at position (entries of sets before i) + j: sets in array order, entries in set order |
| Extraction.Collect | src/main/java/com/legyver/fenxlib/graphrunner/ContextGraphFactory.java:86-89 | the find loop succeeds iff every match has the configured group; then the result is the starting set plus the configured group of each match |
| Extraction.ExtractTokens | src/main/java/com/legyver/fenxlib/graphrunner/ContextGraphFactory.java:84-89 | a value's dependency set is exactly the set of group texts over all matches, so a key referenced twice is recorded once; a value with no match yields the empty set; it fails with NoGroup iff some match lacks the group |
| Extraction.TokensAtMostMatches | src/main/java/com/legyver/fenxlib/graphrunner/ContextGraphFactory.java:86-89 | the dependency set never has more elements than there are matches |
| Extraction.RepeatedReferenceOnce | src/main/java/com/legyver/fenxlib/graphrunner/ContextGraphFactory.java:110-112 | when two matches reference the same key, it is recorded once, so the set is strictly smaller than the number of matches |
| Transformation.SuffixRule | src/main/java/com/legyver/fenxlib/graphrunner/ContextGraphFactory.java:57-60 | the example rule: every key ending in the suffix matches and maps to the key without it, and every matching key is its derived key plus the suffix |
| ContextGraphs.Accept | src/main/java/com/legyver/fenxlib/graphrunner/ContextGraphFactory.java:72 | the graph gains the edge (dependent, dependency), keeps every old edge and gains nothing else |
| ContextGraphFactory.Link | src/main/java/com/legyver/fenxlib/graphrunner/ContextGraphFactory.java:79-91 | one record per entry, in entry order, keyed by the entry's key, whose dependencies are exactly the value's tokens; fails with NoGroup iff some value has a match without the group |
| ContextGraphFactory.Derive | src/main/java/com/legyver/fenxlib/graphrunner/ContextGraphFactory.java:53-65 | no records without a rule; with a rule, every record is (transform(k), {k}) for an entry key k that the rule matches, and every matching entry key has its record |
| ContextGraphFactory.LinkEdges | src/main/java/com/legyver/fenxlib/graphrunner/ContextGraphFactory.java:81-89 | the edges of the linked records are exactly (entry key, referenced key) over all entries |
| ContextGraphFactory.DeriveEdges | src/main/java/com/legyver/fenxlib/graphrunner/ContextGraphFactory.java:54-64 | the edges of the derived records are exactly (transform(k), k) over the matching entry keys, and none without a rule |
| ContextGraphFactory.RecordEdgesAppend | src/main/java/com/legyver/fenxlib/graphrunner/ContextGraphFactory.java:68 | appending the derived records after the extracted ones yields the union of both edge sets |
| ContextGraphFactory.Push | src/main/java/com/legyver/fenxlib/graphrunner/ContextGraphFactory.java:70-74 | calling accept once per (record key, dependency) adds exactly the records' edges to the graph |
| ContextGraphFactory.Build | src/main/java/com/legyver/fenxlib/graphrunner/ContextGraphFactory.java:45-77 | with no array or an empty one, an empty graph and no failure; a null set fails as flattening does; otherwise the build fails, with NoGroup, iff some value has a match without the group |
| ContextGraphFactory.BuildSucceeds | src/main/java/com/legyver/fenxlib/graphrunner/ContextGraphFactory.java:45-98 | make returns a graph iff every supplied set is non-null and every match of every value has the configured group |
| ContextGraphFactory.BuildEdges | src/main/java/com/legyver/fenxlib/graphrunner/ContextGraphFactory.java:68-74 | when the sets are buildable, the build succeeds and its edges are exactly the extracted edges plus the transformation edges, and nothing else |
| ContextGraphFactory.Make | src/main/java/com/legyver/fenxlib/graphrunner/ContextGraphFactory.java:45-77 | the step-by-step make (flatten, link, derive, append, accept loop) yields the same result as Build |
| GraphProperties.EveryEntryContributes | src/main/java/com/legyver/fenxlib/graphrunner/ContextGraphFactory.java:81-89 | for buildable sets, every entry of every set makes its key depend on each key its value references |
| GraphProperties.DuplicateKeysUnion | src/main/java/com/legyver/fenxlib/graphrunner/ContextGraphFactory.java:47-49 | a key present in two sets depends on the union of both values' references; the second set does not overwrite the first |
| GraphProperties.SelfReferenceKept | src/main/java/com/legyver/fenxlib/graphrunner/ContextGraphFactory.java:86-89 | a value that references its own key yields the edge key -> key |
| GraphProperties.NoMatchNoEdges | src/main/java/com/legyver/fenxlib/graphrunner/ContextGraphFactory.java:82-86 | an entry whose value has no match contributes no extracted edge: dropping it leaves the extracted edges unchanged |
| GraphProperties.RuleAddsOnlyDerivedEdges | src/main/java/com/legyver/fenxlib/graphrunner/ContextGraphFactory.java:53-68 | without a rule the graph holds only extracted edges; adding a rule never causes a failure and adds exactly the rule's edges over entry keys |
| GraphProperties.SameEntriesSameEdges | src/main/java/com/legyver/fenxlib/graphrunner/ContextGraphFactory.java:79-91 | two entry lists with the same entries have the same failure condition, the same extracted edges and the same transformation edges |
| GraphProperties.SetOrderIrrelevant | src/main/java/com/legyver/fenxlib/graphrunner/ContextGraphFactory.java:45-49 | any rearrangement of the property sets succeeds or fails alike, and on success builds the same graph |
| Examples.ChainedReferences | src/main/java/com/legyver/fenxlib/graphrunner/ContextGraphFactory.java:38-40 | with `${name}` references, a=1, b=${a}, c=${a}${b} give exactly the edges b->a, c->a, c->b |
| Examples.DerivedKeyExample | src/main/java/com/legyver/fenxlib/graphrunner/ContextGraphFactory.java:57-63 | with the rule stripping ".format", x.format=${y} gives exactly x.format->y and x->x.format |

## Left out

- The regular-expression engine (`Pattern`, `Matcher.find`, `group`) is a foreign library. A pattern is represented by its `find` function. `Examples.References` is one hand-written instance, for `\$\{([^}]*)\}`.
- A capture group that takes no part in a match makes `group` return null, and the code would then add null to the set. This is not modelled: every group of a match has a text.
- The model checks the group per match. In Java all matches of one pattern have the same group count, so both checks agree for every real pattern.
- `java.util.Properties` details are library behaviour: default-property chaining and the enumeration order of `stringPropertyNames`. A set is an ordered list of unique-key entries.
- The internals of `ContextGraph` are not part of this model: its cycle detection and resolution order. Only `accept` is modelled, as edge insertion.
- `VariableExtractionOptions` and `VariableTransformationRule` are not part of this model. They are immutable parameters: `Options` and `Rule`.
- The three constructors only store their arguments. A missing rule is `None`.
- The copy into a second list before `addAll` (avoiding `ConcurrentModificationException`) is an implementation detail. The model appends the derived records after the extracted ones, as the code does.
