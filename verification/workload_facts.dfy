/** Properties of the workload query adapter: the name filter preserves relative order,
    conversion is an order-preserving map, and only the instance workload narrows. */
module WorkloadFacts {
  import opened Wrappers
  import opened Text
  import opened Workloads

  /** Filtering distributes over concatenation. */
  lemma {:induction false} FilterDistributes<T>(a: seq<T>, b: seq<T>, keep: T -> bool)
    ensures Filter(a + b, keep) == Filter(a, keep) + Filter(b, keep)
    decreases |a|
  {
    if |a| == 0 {
      assert a + b == b;
    } else {
      var h := if keep(a[0]) then [a[0]] else [];
      var ka, kb := Filter(a[1..], keep), Filter(b, keep);
      assert (a + b)[0] == a[0] && (a + b)[1..] == a[1..] + b;
      FilterDistributes(a[1..], b, keep);
      assert h + (ka + kb) == (h + ka) + kb;
    }
  }

  /** Every item the filter keeps passes the test. */
  lemma {:induction false} FilterKeeps<T>(items: seq<T>, keep: T -> bool)
    ensures forall k :: 0 <= k < |Filter(items, keep)| ==> keep(Filter(items, keep)[k])
    decreases |items|
  {
    if |items| > 0 {
      var h := if keep(items[0]) then [items[0]] else [];
      var rest := Filter(items[1..], keep);
      FilterKeeps(items[1..], keep);
      assert forall k :: |h| <= k < |h + rest| ==> (h + rest)[k] == rest[k - |h|];
    }
  }

  /** An item is in the result exactly when it is in the input and passes the test. */
  lemma {:induction false} FilterMembers<T>(items: seq<T>, keep: T -> bool, x: T)
    ensures x in Filter(items, keep) <==> x in items && keep(x)
    decreases |items|
  {
    if |items| > 0 {
      var h := if keep(items[0]) then [items[0]] else [];
      FilterMembers(items[1..], keep, x);
      assert x in items <==> x == items[0] || x in items[1..];
      assert x in h + Filter(items[1..], keep) <==> x in h || x in Filter(items[1..], keep);
    }
  }

  /** The name narrowing distributes over concatenation: the kept items keep the
      server's relative order. */
  lemma KeepDistributes<T>(a: seq<T>, b: seq<T>, nameOf: T -> Option<string>, nameFilter: Option<string>)
    ensures KeepByNamePrefix(a + b, nameOf, nameFilter) ==
            KeepByNamePrefix(a, nameOf, nameFilter) + KeepByNamePrefix(b, nameOf, nameFilter)
  {
    if nameFilter.Some? && nameFilter.value != "" {
      FilterDistributes(a, b, HasNamePrefix(nameOf, nameFilter.value));
    }
  }

  /** With an active filter, every kept item's name starts with it. */
  lemma KeptNamesStartWith<T>(items: seq<T>, nameOf: T -> Option<string>, prefix: string)
    requires prefix != ""
    ensures var r := KeepByNamePrefix(items, nameOf, Some(prefix));
      forall k :: 0 <= k < |r| ==> NameStartsWith(nameOf(r[k]), prefix)
  {
    FilterKeeps(items, HasNamePrefix(nameOf, prefix));
  }

  /** With an active filter, an item is kept exactly when its name starts with the
      filter, and nothing else appears in the result. */
  lemma KeepMembers<T>(items: seq<T>, nameOf: T -> Option<string>, prefix: string, x: T)
    requires prefix != ""
    ensures x in KeepByNamePrefix(items, nameOf, Some(prefix)) <==> x in items && NameStartsWith(nameOf(x), prefix)
  {
    FilterMembers(items, HasNamePrefix(nameOf, prefix), x);
  }

  /** The pods of the instance workload all carry the release's instance-server prefix;
      every other workload keeps each listed pod, in the listed order, when listing and
      conversion succeed. */
  lemma {:induction false} WorkloadNarrowing(list: string -> Outcome<seq<Pod>>, releaseName: string)
    ensures var r := GetWorkloads(list, releaseName);
      && (forall k :: 0 <= k < |r[3].pods| ==> NameStartsWith(r[3].pods[k].name, InstancePrefix(releaseName)))
      && (forall w :: 0 <= w < 6 && w != 3 && list(SelectorOf(releaseName, w)).Success? &&
                      PodsInfo(list(SelectorOf(releaseName, w)).value).Success? ==>
            |r[w].pods| == |list(SelectorOf(releaseName, w)).value| &&
            forall k :: 0 <= k < |r[w].pods| ==> r[w].pods[k].name == list(SelectorOf(releaseName, w)).value[k].name)
  {
    var r := GetWorkloads(list, releaseName);
    var prefix := InstancePrefix(releaseName);
    if list(InstanceSelector).Success? {
      var kept := KeepByNamePrefix(list(InstanceSelector).value, PodName, Some(prefix));
      KeptNamesStartWith(list(InstanceSelector).value, PodName, prefix);
      assert forall k :: 0 <= k < |kept| ==> NameStartsWith(PodName(kept[k]), prefix);
    }
  }
}
