/** Property sets and their flattening into one list of reference properties,
    as the graph factory does before it links anything. */
module Properties {
  import opened Failures

  /** One key/value entry read from a property set. */
  datatype Reference = Reference(key: string, value: string)

  /** Keys are unique within one property set. */
  predicate UniqueKeys(p: seq<Reference>) {
    forall i, j :: 0 <= i < j < |p| ==> p[i].key != p[j].key
  }

  /** A property set, listed in the order its property names are enumerated. */
  type PropertySet = p: seq<Reference> | UniqueKeys(p) witness []

  /** Total number of entries over the non-null property sets. */
  function TotalSize(sets: seq<Option<PropertySet>>): nat {
    if |sets| == 0 then 0
    else TotalSize(sets[..|sets| - 1]) + (if sets[|sets| - 1].Some? then |sets[|sets| - 1].value| else 0)
  }

  /** Appends every entry of one property set to the list being collected. */
  function AddResolvingProperties(p: PropertySet, collected: seq<Reference>): (r: seq<Reference>)
    ensures |r| == |collected| + |p|
    ensures r[..|collected|] == collected
    ensures forall j :: 0 <= j < |p| ==> r[|collected| + j] == p[j]
  {
    collected + p
  }

  /** Index of the first null element, when there is one. */
  predicate FirstNull(sets: seq<Option<PropertySet>>, i: nat) {
    i < |sets| && sets[i].None? && forall j :: 0 <= j < i ==> sets[j].Some?
  }

  /** Visits the property sets in array order and collects all of their
      entries; a null element stops the walk with an error. */
  function Flatten(sets: seq<Option<PropertySet>>): (r: Result<seq<Reference>>)
    ensures r.Failure? <==> exists i :: 0 <= i < |sets| && sets[i].None?
    ensures r.Failure? ==> r.error.NullPropertySet? && FirstNull(sets, r.error.index)
    ensures r.Success? ==> |r.value| == TotalSize(sets)
    ensures r.Success? ==> forall e ::
      e in r.value <==> exists i :: 0 <= i < |sets| && sets[i].Some? && e in sets[i].value
  {
    if |sets| == 0 then Success([])
    else
      var front := sets[..|sets| - 1];
      var last := sets[|sets| - 1];
      match Flatten(front)
      case Failure(e) => Failure(e)
      case Success(collected) =>
        if last.None? then Failure(NullPropertySet(|sets| - 1))
        else
          var r := AddResolvingProperties(last.value, collected);
          assert forall e :: e in r <==> e in collected || e in last.value;
          assert forall i :: 0 <= i < |front| ==> front[i] == sets[i];
          Success(r)
  }

  /** Flattening keeps every entry of every set, in set order: the j-th entry
      of the i-th set sits right after the entries of the sets before it. */
  lemma {:induction false} FlattenKeepsOrder(sets: seq<Option<PropertySet>>, i: nat, j: nat)
    requires Flatten(sets).Success?
    requires i < |sets| && sets[i].Some? && j < |sets[i].value|
    ensures TotalSize(sets[..i]) + j < |Flatten(sets).value|
    ensures Flatten(sets).value[TotalSize(sets[..i]) + j] == sets[i].value[j]
    decreases |sets|
  {
    var front := sets[..|sets| - 1];
    var collected := Flatten(front).value;
    if i < |sets| - 1 {
      assert front[..i] == sets[..i];
      assert front[i] == sets[i];
      FlattenKeepsOrder(front, i, j);
    } else {
      assert sets[..i] == front;
    }
  }
}
