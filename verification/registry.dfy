/**
 * The versioned model registry: a history document listing every saved
 * model card, and a current-card document naming the active one. The two
 * JSON files are the fields of a `Registry` object; "the file does not
 * exist" is `None`.
 */
module Registry {
  import opened Wrappers
  import Sorting

  /** The parts of a training run's `_meta.json` that the registry and inference read. */
  datatype Meta = Meta(featureColumns: Option<seq<string>>, hasOtherKeys: bool)

  /** A model card; metrics, stability and hyper-parameter blocks are copied verbatim and not modelled. */
  datatype ModelCard = ModelCard(
    version: int,
    trainedAt: string,
    mode: string,
    durationSec: Option<real>,
    nSamples: Option<nat>,
    nFeatures: Option<nat>,
    source: string,
    files: map<string, string>,
    meta: Meta,
    isActive: bool,
    activatedAt: Option<string>)

  datatype RegistryError =
    | MetaNotFound(path: string)
    | StabilityNotFound(path: string)
    | NoModelsRegistered
    | VersionNotFound(version: int)

  /** Number of cards flagged active. */
  function ActiveCount(h: seq<ModelCard>): nat {
    if h == [] then 0 else (if h[0].isActive then 1 else 0) + ActiveCount(h[1..])
  }

  /** The versions of `h` are 1, 2, ..., |h| in order. */
  predicate VersionsSequential(h: seq<ModelCard>) {
    forall i :: 0 <= i < |h| ==> h[i].version == i + 1
  }

  predicate UniqueVersions(h: seq<ModelCard>) {
    forall i, j :: 0 <= i < j < |h| ==> h[i].version != h[j].version
  }

  /** The history after every entry has been marked inactive. */
  function Deactivated(h: seq<ModelCard>): (r: seq<ModelCard>)
    ensures |r| == |h|
    ensures forall i :: 0 <= i < |r| ==> !r[i].isActive
    ensures forall i :: 0 <= i < |r| ==> r[i].(isActive := h[i].isActive) == h[i]
  {
    seq(|h|, i requires 0 <= i < |h| => h[i].(isActive := false))
  }

  /** The entry `set_active_model_version` loop marks active at position `i`. */
  function ActivatedEntry(e: ModelCard, version: int, now: string): ModelCard {
    if e.version == version then e.(isActive := true, activatedAt := Some(now))
    else e.(isActive := false)
  }

  /** The history after re-activation of `version`. */
  function Activated(h: seq<ModelCard>, version: int, now: string): (r: seq<ModelCard>)
    ensures |r| == |h|
    ensures forall i :: 0 <= i < |r| ==> (r[i].isActive <==> h[i].version == version)
    ensures forall i :: 0 <= i < |r| ==> r[i].version == h[i].version
  {
    seq(|h|, i requires 0 <= i < |h| => ActivatedEntry(h[i], version, now))
  }

  /** The last entry with the given version, if any. */
  function LastWithVersion(h: seq<ModelCard>, version: int): (r: Option<ModelCard>)
    ensures r.Some? ==> r.value in h && r.value.version == version
    ensures r.None? ==> forall i :: 0 <= i < |h| ==> h[i].version != version
  {
    if h == [] then None
    else if h[|h| - 1].version == version then Some(h[|h| - 1])
    else LastWithVersion(h[..|h| - 1], version)
  }

  lemma LastWithVersionStep(h: seq<ModelCard>, x: ModelCard, version: int)
    ensures LastWithVersion(h + [x], version) ==
      if x.version == version then Some(x) else LastWithVersion(h, version)
  {
    assert (h + [x])[..|h|] == h;
  }

  lemma {:induction false} ActiveCountAppend(h: seq<ModelCard>, c: ModelCard)
    ensures ActiveCount(h + [c]) == ActiveCount(h) + (if c.isActive then 1 else 0)
  {
    if h != [] {
      assert (h + [c])[1..] == h[1..] + [c];
      ActiveCountAppend(h[1..], c);
    }
  }

  lemma {:induction false} ActiveCountNone(h: seq<ModelCard>)
    requires forall i :: 0 <= i < |h| ==> !h[i].isActive
    ensures ActiveCount(h) == 0
  {
    if h != [] {
      ActiveCountNone(h[1..]);
    }
  }

  lemma {:induction false} ActiveCountOne(h: seq<ModelCard>, k: nat)
    requires k < |h| && h[k].isActive
    requires forall i :: 0 <= i < |h| && i != k ==> !h[i].isActive
    ensures ActiveCount(h) == 1
  {
    if k == 0 {
      ActiveCountNone(h[1..]);
    } else {
      ActiveCountOne(h[1..], k - 1);
    }
  }

  /** After a save, the new card is the only active entry. */
  lemma SaveLeavesOneActive(h: seq<ModelCard>, card: ModelCard)
    requires card.isActive
    ensures ActiveCount(Deactivated(h) + [card]) == 1
  {
    ActiveCountNone(Deactivated(h));
    ActiveCountAppend(Deactivated(h), card);
  }

  /** Saving with version |h|+1 keeps the versions 1..n in history order. */
  lemma SaveKeepsVersionsSequential(h: seq<ModelCard>, card: ModelCard)
    requires VersionsSequential(h) && card.version == |h| + 1
    ensures VersionsSequential(Deactivated(h) + [card])
  {
    var r := Deactivated(h) + [card];
    forall i | 0 <= i < |r| ensures r[i].version == i + 1 {
      if i < |h| {
        assert r[i] == Deactivated(h)[i];
        assert r[i].(isActive := h[i].isActive) == h[i];
      }
    }
  }

  lemma SequentialIsUnique(h: seq<ModelCard>)
    requires VersionsSequential(h)
    ensures UniqueVersions(h)
  {
  }

  /** With unique versions, re-activating a registered version leaves exactly one active entry. */
  lemma ActivationLeavesOneActive(h: seq<ModelCard>, version: int, now: string, k: nat)
    requires UniqueVersions(h) && k < |h| && h[k].version == version
    ensures ActiveCount(Activated(h, version, now)) == 1
  {
    var r := Activated(h, version, now);
    forall i | 0 <= i < |r| && i != k ensures !r[i].isActive {
      if i < k { assert h[i].version != h[k].version; }
      else { assert h[k].version != h[i].version; }
    }
    ActiveCountOne(r, k);
  }

  /** `n_features`: the length of `feature_columns`, or None when that list is empty or absent. */
  function FeatureCount(meta: Meta): (r: Option<nat>)
    ensures r.Some? <==> meta.featureColumns.Some? && |meta.featureColumns.value| > 0
    ensures r.Some? ==> r.value == |meta.featureColumns.value|
  {
    match meta.featureColumns
    case Some(cols) => if |cols| > 0 then Some(|cols|) else None
    case None => None
  }

  /** The `files` block of a card saved from a run whose outputs share the prefix `base`. */
  function CardFiles(base: string, scoresCsv: string, pcaExists: bool): map<string, string> {
    var m := map[
      "scores_csv" := scoresCsv,
      "meta_json" := base + "_meta.json",
      "stability_json" := base + "_stability.json",
      "scaler" := base + "_scaler.joblib",
      "residual_model" := base + "_resid.joblib"];
    if pcaExists then m["pca" := base + "_pca.joblib"] else m
  }

  class Registry {
    /** history.json, if it exists. */
    var history: Option<seq<ModelCard>>
    /** current_model_card.json, if it exists. */
    var current: Option<ModelCard>

    constructor ()
      ensures history == None && current == None
    {
      history := None;
      current := None;
    }

    /** `get_current_model_card`. */
    function GetCurrentModelCard(): Option<ModelCard>
      reads this
    {
      current
    }

    /** `get_model_history`: the stored list, or [] when there is no history file. */
    function GetModelHistory(): seq<ModelCard>
      reads this
    {
      if history.Some? then history.value else []
    }

    /**
     * `save_new_model_version`: `base` is the scores path without its suffix,
     * `files` the set of existing paths, `meta` the parsed `_meta.json`,
     * `nSamples` the row count of the scores file (None when it cannot be read).
     */
    method SaveNewModelVersion(
      base: string, scoresCsv: string, mode: string, durationSec: Option<real>,
      sourcePath: Option<string>, files: set<string>, meta: Meta,
      nSamples: Option<nat>, now: string)
      returns (r: Result<ModelCard, RegistryError>)
      modifies this
      ensures base + "_meta.json" !in files ==> r == Err(MetaNotFound(base + "_meta.json"))
      ensures base + "_meta.json" in files && base + "_stability.json" !in files ==>
        r == Err(StabilityNotFound(base + "_stability.json"))
      ensures r.Err? ==> history == old(history) && current == old(current)
      ensures r.Ok? <==> base + "_meta.json" in files && base + "_stability.json" in files
      ensures r.Ok? ==>
        var h := old(GetModelHistory());
        && r.value.version == |h| + 1
        && r.value.isActive && r.value.activatedAt == Some(now)
        && r.value.nFeatures == FeatureCount(meta)
        && r.value.files == CardFiles(base, scoresCsv, base + "_pca.joblib" in files)
        && r.value.source == OrDefault(sourcePath, "data/latest_ingested.csv")
        && history == Some(Deactivated(h) + [r.value])
        && current == Some(r.value)
    {
      if base + "_meta.json" !in files {
        return Err(MetaNotFound(base + "_meta.json"));
      }
      if base + "_stability.json" !in files {
        return Err(StabilityNotFound(base + "_stability.json"));
      }
      var nFeatures := FeatureCount(meta);
      var hist := DeactivateAll(GetModelHistory());
      var version := |hist| + 1;
      var card := ModelCard(
        version, now, mode, durationSec, nSamples, nFeatures,
        OrDefault(sourcePath, "data/latest_ingested.csv"),
        CardFiles(base, scoresCsv, base + "_pca.joblib" in files), meta, false, None);
      card := card.(isActive := true, activatedAt := Some(now));
      current := Some(card);
      history := Some(hist + [card]);
      r := Ok(card);
    }

    /** `set_active_model_version`: the matching entries become active, all others inactive. */
    method SetActiveModelVersion(version: int, now: string) returns (r: Result<ModelCard, RegistryError>)
      modifies this
      ensures old(history).None? ==> r == Err(NoModelsRegistered)
      ensures old(history).Some? ==>
        (r.Err? <==> LastWithVersion(old(history).value, version).None?)
      ensures r.Err? ==> history == old(history) && current == old(current)
      ensures r.Err? && old(history).Some? ==> r.error == VersionNotFound(version)
      ensures r.Ok? ==>
        && old(history).Some?
        && history == Some(Activated(old(history).value, version, now))
        && Some(r.value) == LastWithVersion(history.value, version)
        && current == Some(r.value)
    {
      if history.None? {
        return Err(NoModelsRegistered);
      }
      var hist, target := ActivateVersion(history.value, version, now);
      if target.None? {
        return Err(VersionNotFound(version));
      }
      current := target;
      history := Some(hist);
      r := Ok(target.value);
    }

    /** The loop of `save_new_model_version` that marks every earlier entry inactive. */
    static method DeactivateAll(h0: seq<ModelCard>) returns (hist: seq<ModelCard>)
      ensures hist == Deactivated(h0)
    {
      hist := h0;
      var i := 0;
      while i < |hist|
        invariant 0 <= i <= |hist| == |h0|
        invariant forall j :: 0 <= j < i ==> hist[j] == h0[j].(isActive := false)
        invariant forall j :: i <= j < |hist| ==> hist[j] == h0[j]
      {
        hist := hist[i := hist[i].(isActive := false)];
        i := i + 1;
      }
    }

    /** The loop of `set_active_model_version`: each entry activated or deactivated, and the last match found. */
    static method ActivateVersion(h0: seq<ModelCard>, version: int, now: string) returns (hist: seq<ModelCard>, target: Option<ModelCard>)
      ensures hist == Activated(h0, version, now)
      ensures target == LastWithVersion(hist, version)
      ensures target.None? <==> forall j :: 0 <= j < |h0| ==> h0[j].version != version
    {
      hist := h0;
      target := None;
      var i := 0;
      ghost var goal := Activated(h0, version, now);
      while i < |h0|
        invariant 0 <= i <= |h0|
        invariant hist == goal[..i] + h0[i..]
        invariant target == LastWithVersion(goal[..i], version)
      {
        hist, target := ActivateAt(h0, hist, target, i, version, now);
        i := i + 1;
      }
      assert hist == goal by {
        assert goal[..i] == goal;
      }
    }

    /** One pass of that loop: entry `i` activated or deactivated, and the match so far updated. */
    static method ActivateAt(ghost h0: seq<ModelCard>, hist: seq<ModelCard>, target: Option<ModelCard>, i: nat, version: int, now: string)
      returns (hist': seq<ModelCard>, target': Option<ModelCard>)
      requires i < |h0| && hist == Activated(h0, version, now)[..i] + h0[i..]
      requires target == LastWithVersion(Activated(h0, version, now)[..i], version)
      ensures hist' == Activated(h0, version, now)[..i + 1] + h0[i + 1..]
      ensures target' == LastWithVersion(Activated(h0, version, now)[..i + 1], version)
    {
      ghost var goal := Activated(h0, version, now);
      assert hist[i] == h0[i] by {
        Sorting.AppendParts(goal[..i], h0[i..]);
      }
      if hist[i].version == version {
        hist' := hist[i := hist[i].(isActive := true, activatedAt := Some(now))];
        target' := Some(hist'[i]);
      } else {
        hist' := hist[i := hist[i].(isActive := false)];
        target' := target;
      }
      Sorting.UpdateAtJoin(goal[..i], h0[i..], goal[i]);
      assert h0[i..][1..] == h0[i + 1..];
      Sorting.TakeSnoc(goal, i);
      LastWithVersionStep(goal[..i], goal[i], version);
    }
  }
}
