/** Scanning a property value for references to other keys. The regular
    expression engine is not modelled: the configured pattern is represented
    by the sequence of successive matches it finds in a value. */
module Extraction {
  import opened Failures

  /** The texts of the capture groups of one match; index 0 is the whole match. */
  type Match = seq<string>

  /** The extraction configuration: the successive non-overlapping matches of
      the tokenizer pattern in a value, and the capture-group index whose text
      names the referenced key. */
  datatype Options = Options(find: string -> seq<Match>, group: int)

  /** The match has a capture group with this index: Java's `group` accepts
      only indices from 0 up to the group count. */
  predicate HasGroup(m: Match, group: int) {
    0 <= group < |m|
  }

  /** Every match of the value has the configured capture group. */
  predicate GroupPresent(opts: Options, value: string) {
    forall m :: m in opts.find(value) ==> HasGroup(m, opts.group)
  }

  /** The distinct keys a value references: the configured group of each match. */
  ghost function TokenSet(opts: Options, value: string): set<string> {
    set m | m in opts.find(value) && HasGroup(m, opts.group) :: m[opts.group]
  }

  /** The find loop over the remaining matches: each match adds the text of
      the configured group to the set collected so far; a match without that
      group aborts the loop. */
  function Collect(matches: seq<Match>, group: int, depends: set<string>): (r: Result<set<string>>)
    ensures r.Success? <==> forall k :: 0 <= k < |matches| ==> HasGroup(matches[k], group)
    ensures r.Failure? ==> r.error == NoGroup(group)
    ensures r.Success? ==> r.value == depends + set m | m in matches && HasGroup(m, group) :: m[group]
    decreases |matches|
  {
    if |matches| == 0 then Success(depends)
    else if !HasGroup(matches[0], group) then
      Failure(NoGroup(group))
    else
      var rest := Collect(matches[1..], group, depends + {matches[0][group]});
      assert forall m :: m in matches <==> m == matches[0] || m in matches[1..];
      rest
  }

  /** The dependency set of one value: exactly the distinct referenced keys. */
  function ExtractTokens(opts: Options, value: string): (r: Result<set<string>>)
    ensures r.Success? <==> GroupPresent(opts, value)
    ensures r.Failure? ==> r.error == NoGroup(opts.group)
    ensures r.Success? ==> r.value == TokenSet(opts, value)
    ensures opts.find(value) == [] ==> r == Success({})
  {
    Collect(opts.find(value), opts.group, {})
  }

  /** A key referenced by several matches is recorded once: the dependency
      set has no more elements than there are matches. */
  lemma {:induction false} TokensAtMostMatches(opts: Options, value: string)
    requires GroupPresent(opts, value)
    ensures |ExtractTokens(opts, value).value| <= |opts.find(value)|
  {
    var ms := opts.find(value);
    assert forall k :: 0 <= k < |ms| ==> HasGroup(ms[k], opts.group) by {
      forall k | 0 <= k < |ms| ensures HasGroup(ms[k], opts.group) {
        assert ms[k] in ms;
      }
    }
    CollectAtMost(ms, opts.group);
  }

  lemma {:induction false} CollectAtMost(matches: seq<Match>, group: int)
    requires forall k :: 0 <= k < |matches| ==> HasGroup(matches[k], group)
    ensures |set m | m in matches && HasGroup(m, group) :: m[group]| <= |matches|
    decreases |matches|
  {
    var s := set m | m in matches && HasGroup(m, group) :: m[group];
    if |matches| > 0 {
      var t := set m | m in matches[1..] && HasGroup(m, group) :: m[group];
      CollectAtMost(matches[1..], group);
      assert s == t + {matches[0][group]} by {
        assert forall m :: m in matches <==> m == matches[0] || m in matches[1..];
      }
    } else {
      assert s == {};
    }
  }

  /** A key referenced by two different matches is recorded once: the
      dependency set is strictly smaller than the number of matches. */
  lemma RepeatedReferenceOnce(opts: Options, value: string, i: nat, j: nat)
    requires GroupPresent(opts, value)
    requires i < j < |opts.find(value)|
    requires HasGroup(opts.find(value)[i], opts.group) && HasGroup(opts.find(value)[j], opts.group)
    requires opts.find(value)[i][opts.group] == opts.find(value)[j][opts.group]
    ensures |ExtractTokens(opts, value).value| < |opts.find(value)|
  {
    var ms := opts.find(value);
    var g := opts.group;
    var rest := ms[..j] + ms[j + 1..];
    assert forall k :: 0 <= k < |rest| ==> HasGroup(rest[k], g) by {
      forall k | 0 <= k < |rest| ensures HasGroup(rest[k], g) {
        assert rest[k] in ms;
      }
    }
    CollectAtMost(rest, g);
    var s := set m | m in ms && HasGroup(m, g) :: m[g];
    var t := set m | m in rest && HasGroup(m, g) :: m[g];
    assert s == t by {
      forall x | x in s ensures x in t {
        var m :| m in ms && HasGroup(m, g) && m[g] == x;
        var k :| 0 <= k < |ms| && ms[k] == m;
        if k < j {
          assert rest[k] == m;
        } else if k == j {
          assert rest[i] == ms[i];
        } else {
          assert rest[k - 1] == m;
        }
      }
      forall x | x in t ensures x in s {
        var m :| m in rest && HasGroup(m, g) && m[g] == x;
        assert m in ms;
      }
    }
  }
}
