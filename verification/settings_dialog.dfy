/** The settings dialog's form logic: the pending edits kept beside the selected cluster,
    the view of the cluster with those edits laid over it, the merge performed on save,
    and when the Save button is disabled. */
module SettingsDialog {
  import opened Wrappers
  import opened Clusters

  /** A `Record<string, string>`. */
  type Record = map<string, string>

  /** The flags the dialog starts from: the stored "show all branches" setting, or
      `"false"` when nothing (or the empty string) is stored. */
  function DefaultFlags(stored: Option<string>): (r: Record)
    ensures r.Keys == {ShowAllBranches}
    ensures stored.Some? && stored.value != "" ==> r[ShowAllBranches] == stored.value
    ensures stored.None? || stored.value == "" ==> r[ShowAllBranches] == "false"
    ensures r[ShowAllBranches] != ""
  {
    map[ShowAllBranches := if stored.Some? && stored.value != "" then stored.value else "false"]
  }

  /** `localConfigs` / `localVars`: the cluster's own keys, each showing the pending edit
      when there is one and the saved value otherwise. */
  function Overlay(orig: Record, temp: Record): (r: Record)
    ensures r.Keys == orig.Keys
    ensures forall k :: k in orig && k in temp ==> r[k] == temp[k]
    ensures forall k :: k in orig && k !in temp ==> r[k] == orig[k]
  {
    map k | k in orig :: if k in temp then temp[k] else orig[k]
  }

  /** `changeConfig` / `changeVar` / `changeFlag`: a copy with one key set. */
  function ChangeKey(m: Record, key: string, value: string): (r: Record)
    ensures r.Keys == m.Keys + {key}
    ensures r[key] == value
    ensures forall k :: k in m && k != key ==> r[k] == m[k]
  {
    m[key := value]
  }

  /** The reference meaning of the save merge: the saved values overridden by every
      pending edit, with keys only the edits have added. */
  function Merged(orig: Record, temp: Record): (r: Record)
    ensures r.Keys == orig.Keys + temp.Keys
    ensures forall k :: k in temp ==> r[k] == temp[k]
    ensures forall k :: k in orig && k !in temp ==> r[k] == orig[k]
  {
    orig + temp
  }

  /** The loop of `saveSettings`: start from a copy of the saved record and write every
      pending edit into it. */
  method MergeEdits(orig: Record, temp: Record) returns (r: Record)
    ensures r == Merged(orig, temp)
  {
    r := orig;
    var pending := temp.Keys;
    while pending != {}
      invariant MergeInvariant(orig, temp, r, pending)
      decreases |pending|
    {
      var k :| k in pending;
      MergeStep(orig, temp, r, pending, k);
      r := r[k := temp[k]];
      pending := pending - {k};
    }
    MergeDone(orig, temp, r);
  }

  /** The loop invariant of `MergeEdits`: the edits not yet pending are written, and
      every other key holds its saved value. */
  ghost predicate MergeInvariant(orig: Record, temp: Record, r: Record, pending: set<string>)
  {
    && pending <= temp.Keys
    && (forall k :: k in r <==> k in orig || (k in temp && k !in pending))
    && (forall k :: k in temp && k !in pending ==> r[k] == temp[k])
    && (forall k :: k in orig && (k !in temp || k in pending) ==> r[k] == orig[k])
  }

  /** Writing one pending edit keeps the invariant. */
  lemma MergeStep(orig: Record, temp: Record, r: Record, pending: set<string>, k: string)
    requires MergeInvariant(orig, temp, r, pending) && k in pending
    ensures MergeInvariant(orig, temp, r[k := temp[k]], pending - {k})
  {
  }

  /** With nothing pending the invariant is the merge. */
  lemma MergeDone(orig: Record, temp: Record, r: Record)
    requires MergeInvariant(orig, temp, r, {})
    ensures r == Merged(orig, temp)
  {
    var m := Merged(orig, temp);
    assert r.Keys == m.Keys;
  }

  /** What saving does: the cluster with merged configs and variables (every other field
      kept), the flag value written back to local storage, whether the dialog closes
      (exactly when the store call `saved` reports success), and the cluster whose
      deployment status is fetched afterwards. */
  datatype SaveEffects = SaveEffects(updated: Cluster, storedShowAllBranches: string, closes: bool, refetched: Cluster)

  /** `saveSettings`; the flags always hold the "show all branches" key, since they start
      from `DefaultFlags` and edits only add keys (`FlagsKeepBranchesKey`). */
  method SaveSettings(cluster: Cluster, tempConfigs: Record, tempVars: Record, flags: Record, saved: bool)
    returns (e: SaveEffects)
    requires ShowAllBranches in flags
    ensures e.updated.id == cluster.id && e.updated.name == cluster.name && e.updated.clusterType == cluster.clusterType
    ensures e.updated.configs == Merged(cluster.configs, tempConfigs)
    ensures e.updated.variables == Merged(cluster.variables, tempVars)
    ensures e.storedShowAllBranches == flags[ShowAllBranches]
    ensures e.closes == saved
    ensures e.refetched == e.updated
  {
    var configs := MergeEdits(cluster.configs, tempConfigs);
    var variables := MergeEdits(cluster.variables, tempVars);
    var updated := cluster.(configs := configs, variables := variables);
    e := SaveEffects(updated, flags[ShowAllBranches], saved, updated);
  }

  /** Flag edits never lose the "show all branches" key. */
  lemma FlagsKeepBranchesKey(stored: Option<string>, edits: seq<(string, string)>)
    ensures ShowAllBranches in ApplyEdits(DefaultFlags(stored), edits)
  {
    ApplyEditsKeepsKeys(DefaultFlags(stored), edits);
  }

  /** A series of single-key edits, in order. */
  function ApplyEdits(m: Record, edits: seq<(string, string)>): (r: Record)
    ensures m.Keys <= r.Keys
    decreases |edits|
  {
    if |edits| == 0 then m else ApplyEdits(ChangeKey(m, edits[0].0, edits[0].1), edits[1..])
  }

  /** Edits only ever add keys. */
  lemma {:induction false} ApplyEditsKeepsKeys(m: Record, edits: seq<(string, string)>)
    ensures m.Keys <= ApplyEdits(m, edits).Keys
    decreases |edits|
  {
    if |edits| > 0 {
      ApplyEditsKeepsKeys(ChangeKey(m, edits[0].0, edits[0].1), edits[1..]);
    }
  }

  /** The form shows exactly what a save would store for the cluster's own keys; a save
      additionally stores the edits of keys the cluster does not have. */
  lemma OverlayIsSaveOnOwnKeys(orig: Record, temp: Record)
    ensures Overlay(orig, temp) == map k | k in orig :: Merged(orig, temp)[k]
    ensures Merged(orig, temp).Keys - Overlay(orig, temp).Keys == temp.Keys - orig.Keys
  {
  }

  /** With no pending edits the form shows the saved values and a save stores them back. */
  lemma NoEditsNoChange(orig: Record)
    ensures Overlay(orig, map[]) == orig
    ensures Merged(orig, map[]) == orig
  {
  }

  /** An edit of one of the cluster's own keys shows in the form at once and leaves every
      other key as it was shown. */
  lemma EditShowsInForm(orig: Record, temp: Record, key: string, value: string)
    requires key in orig
    ensures Overlay(orig, ChangeKey(temp, key, value))[key] == value
    ensures forall k :: k in orig && k != key ==> Overlay(orig, ChangeKey(temp, key, value))[k] == Overlay(orig, temp)[k]
  {
  }

  /** The Save button's `disabled` condition. */
  predicate SaveDisabled(loading: bool, tempConfigs: Record, tempVars: Record, defaultFlags: Record, flags: Record)
  {
    loading || (|tempConfigs| == 0 && |tempVars| == 0 && defaultFlags == flags)
  }

  /** Save is enabled exactly when nothing is loading and there is something to save: a
      pending config or variable edit, or flags that differ from the defaults. */
  lemma SaveEnabledIff(loading: bool, tempConfigs: Record, tempVars: Record, defaultFlags: Record, flags: Record)
    ensures !SaveDisabled(loading, tempConfigs, tempVars, defaultFlags, flags)
      <==> !loading && (exists k :: k in tempConfigs || k in tempVars || (k in defaultFlags.Keys + flags.Keys && (k in defaultFlags) != (k in flags)) || (k in defaultFlags && k in flags && defaultFlags[k] != flags[k]))
  {
    if |tempConfigs| != 0 {
      var k :| k in tempConfigs;
    } else if |tempVars| != 0 {
      var k :| k in tempVars;
    } else if defaultFlags != flags {
      if defaultFlags.Keys != flags.Keys {
        var k :| k in defaultFlags.Keys + flags.Keys && (k in defaultFlags) != (k in flags);
      } else {
        var k :| k in defaultFlags && defaultFlags[k] != flags[k];
      }
    }
  }

  /** Any config or variable edit enables Save unless something is loading. */
  lemma EditEnablesSave(loading: bool, tempConfigs: Record, tempVars: Record, defaultFlags: Record, flags: Record, key: string, value: string)
    requires !loading
    ensures !SaveDisabled(loading, ChangeKey(tempConfigs, key, value), tempVars, defaultFlags, flags)
    ensures !SaveDisabled(loading, tempConfigs, ChangeKey(tempVars, key, value), defaultFlags, flags)
  {
    assert key in ChangeKey(tempConfigs, key, value);
    assert key in ChangeKey(tempVars, key, value);
  }
}
