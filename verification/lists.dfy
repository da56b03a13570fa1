/** Generic list helpers shared by the status entries and the check tables. */
module Lists {

  /** The key of every item of a list, in order. */
  function Keys<T>(items: seq<T>, key: T -> string): (r: seq<string>)
    ensures |r| == |items|
    ensures forall k :: 0 <= k < |items| ==> r[k] == key(items[k])
  {
    if |items| == 0 then [] else [key(items[0])] + Keys(items[1..], key)
  }
}
