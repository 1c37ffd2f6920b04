/**
 * What the templates of this system declare, at the level of detail the
 * properties need: values that CloudFormation resolves at deployment are kept
 * as symbolic references, and stack outputs carry their cross-stack export names.
 */
module Resources {
  /** The value a resource property holds. */
  datatype ValueRef =
    | Ref(logicalId: string)              // `resource.ref`, `subnet.subnetId`
    | SubnetRouteTable(subnetId: string)  // `subnet.routeTable.routeTableId`
    | ImportValue(exportName: string)     // `Fn.importValue(name)`
    | Literal(value: string)

  datatype Tag = Tag(key: string, value: string)

  /** A stack output with its cross-stack export name. */
  datatype Output = Output(exportName: string, value: ValueRef)

  /** The names a list of outputs exports, in order. */
  function ExportNames(outputs: seq<Output>): (names: seq<string>)
    ensures |names| == |outputs|
    ensures forall k :: 0 <= k < |outputs| ==> names[k] == outputs[k].exportName
  {
    seq(|outputs|, k requires 0 <= k < |outputs| => outputs[k].exportName)
  }

  lemma ExportNamesConcat(xs: seq<Output>, ys: seq<Output>)
    ensures ExportNames(xs + ys) == ExportNames(xs) + ExportNames(ys)
  {
  }

  /** The export names a list of values imports. */
  function ImportedNames(values: seq<ValueRef>): (names: set<string>)
    ensures forall n :: n in names <==> exists k :: 0 <= k < |values| && values[k] == ImportValue(n)
  {
    set k | 0 <= k < |values| && values[k].ImportValue? :: values[k].exportName
  }

  /** No element occurs twice. */
  predicate Distinct<T(==)>(s: seq<T>) {
    |s| == 0 || (s[0] !in s[1..] && Distinct(s[1..]))
  }

  lemma {:induction false} DistinctPairwise<T>(s: seq<T>)
    requires Distinct(s)
    ensures forall j, k :: 0 <= j < k < |s| ==> s[j] != s[k]
  {
    if |s| > 0 {
      DistinctPairwise(s[1..]);
      forall j, k | 0 <= j < k < |s| ensures s[j] != s[k] {
        if j == 0 {
          assert s[k] == s[1..][k - 1];
        } else {
          assert s[j] == s[1..][j - 1] && s[k] == s[1..][k - 1];
        }
      }
    }
  }

  lemma {:induction false} DistinctCardinality<T>(s: seq<T>)
    requires Distinct(s)
    ensures |set x | x in s| == |s|
  {
    if |s| > 0 {
      DistinctCardinality(s[1..]);
      assert (set x | x in s) == {s[0]} + (set x | x in s[1..]);
    }
  }

  /** Strings of pairwise different lengths are distinct. */
  lemma {:induction false} LengthsDistinct(s: seq<string>)
    requires forall j, k :: 0 <= j < k < |s| ==> |s[j]| != |s[k]|
    ensures Distinct(s)
  {
    if |s| > 0 {
      LengthsDistinct(s[1..]);
    }
  }
}
