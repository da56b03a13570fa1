/** One discrete check result (`AppModel`) and the point update shared by both
    status reducers: find the first entry with the same `id` and overwrite it. */
module AppStatus {
  import opened Lists

  datatype Status = Unknown | Checking | Configured | NotConfigured | Processing | Error

  /** A status entry. Its `id` is the key of every point update; the other fields
      travel through the reducers unchanged; `caption` is the source's `label`. */
  datatype AppModel = AppModel(id: string, caption: string, status: Status, detail: string)

  /** The key of an entry. */
  function IdOf(m: AppModel): string
  {
    m.id
  }

  /** `list.findIndex((app) => app.id === id)`: the first matching position, or -1. */
  function FindById(list: seq<AppModel>, id: string): (r: int)
    ensures -1 <= r < |list|
    ensures r == -1 <==> forall k :: 0 <= k < |list| ==> list[k].id != id
    ensures r >= 0 ==> list[r].id == id
    ensures r >= 0 ==> forall k :: 0 <= k < r ==> list[k].id != id
  {
    if |list| == 0 then -1
    else if list[0].id == id then 0
    else
      var t := FindById(list[1..], id);
      if t == -1 then -1 else t + 1
  }

  /** `list.merge({ [index]: entry })` with the index found by `FindById`. Merging at
      -1 sets a property that is not an array index, so no element and not the length
      changes. */
  function PointUpdate(list: seq<AppModel>, entry: AppModel): (r: seq<AppModel>)
    ensures |r| == |list|
    ensures Keys(r, IdOf) == Keys(list, IdOf)
    ensures (forall k :: 0 <= k < |list| ==> list[k].id != entry.id) ==> r == list
    ensures forall k :: 0 <= k < |list| && list[k].id == entry.id ==>
              r[FindById(list, entry.id)] == entry
    ensures forall k :: 0 <= k < |list| && k != FindById(list, entry.id) ==> r[k] == list[k]
  {
    var i := FindById(list, entry.id);
    if i == -1 then list else list[i := entry]
  }

  /** A second update of the same id overwrites the first: last write wins. */
  lemma {:induction false} PointUpdateLastWriteWins(list: seq<AppModel>, e1: AppModel, e2: AppModel)
    requires e1.id == e2.id
    ensures PointUpdate(PointUpdate(list, e1), e2) == PointUpdate(list, e2)
  {
    var mid := PointUpdate(list, e1);
    assert Keys(mid, IdOf) == Keys(list, IdOf);
    assert forall k :: 0 <= k < |list| ==> mid[k].id == list[k].id by {
      forall k | 0 <= k < |list| ensures mid[k].id == list[k].id {
        assert Keys(mid, IdOf)[k] == Keys(list, IdOf)[k];
      }
    }
    SameIdsSameFind(mid, list, e2.id);
  }

  /** `FindById` depends only on the ids of the list. */
  lemma SameIdsSameFind(a: seq<AppModel>, b: seq<AppModel>, id: string)
    requires |a| == |b|
    requires forall k :: 0 <= k < |a| ==> a[k].id == b[k].id
    ensures FindById(a, id) == FindById(b, id)
  {
  }

  /** Ids that were pairwise distinct stay pairwise distinct after a point update. */
  predicate UniqueIds(list: seq<AppModel>)
  {
    forall i, j :: 0 <= i < j < |list| ==> list[i].id != list[j].id
  }

  lemma PointUpdateKeepsUniqueIds(list: seq<AppModel>, entry: AppModel)
    requires UniqueIds(list)
    ensures UniqueIds(PointUpdate(list, entry))
  {
    var r := PointUpdate(list, entry);
    forall k | 0 <= k < |list| ensures r[k].id == list[k].id {
      assert Keys(r, IdOf)[k] == Keys(list, IdOf)[k];
    }
  }
}
