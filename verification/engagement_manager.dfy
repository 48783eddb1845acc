/**
 * The engagement suite of a merchant (components/EngagementManager.tsx):
 * the licence/activation cascade over lifecycle-email features, template
 * edits on the selected feature, attachment lists, the loyalty-configuration
 * merge, and the first-occurrence placeholder substitution of the preview.
 */
module EngagementManager {
  import opened Wrappers
  import opened Types

  // ---------------------------------------------------------------------
  // Feature shape: ids and parent links, which the cascade reads but never writes
  // ---------------------------------------------------------------------

  datatype Link = Link(id: string, parentId: Option<string>)

  function Links(fs: seq<CesFeature>): (r: seq<Link>)
    ensures |r| == |fs|
    ensures forall i :: 0 <= i < |fs| ==> r[i].id == fs[i].id && r[i].parentId == fs[i].parentId
  {
    seq(|fs|, i requires 0 <= i < |fs| => Link(fs[i].id, fs[i].parentId))
  }

  /** The first index holding `id`, or -1. */
  function FindIndex(ls: seq<Link>, id: string): (r: int)
    ensures -1 <= r < |ls|
    ensures r == -1 <==> forall j :: 0 <= j < |ls| ==> ls[j].id != id
    ensures r >= 0 ==> ls[r].id == id && forall j :: 0 <= j < r ==> ls[j].id != id
  {
    if |ls| == 0 then -1
    else if ls[0].id == id then 0
    else
      var k := FindIndex(ls[1..], id);
      if k == -1 then -1 else k + 1
  }

  /** The ids of the direct children of `parent`, in list order. */
  function ChildIds(ls: seq<Link>, parent: string): (r: seq<string>)
    ensures forall x :: x in r <==> exists j :: 0 <= j < |ls| && ls[j].parentId == Some(parent) && ls[j].id == x
  {
    if |ls| == 0 then []
    else (if ls[0].parentId == Some(parent) then [ls[0].id] else []) + ChildIds(ls[1..], parent)
  }

  function RankOf(rank: map<string, nat>, id: string): nat {
    if id in rank then rank[id] else 0
  }

  /**
   * `rank` witnesses that the parentId graph is acyclic: every feature that
   * names a parent ranks strictly below that parent. The walk has no visited
   * set, so it terminates only on such a graph.
   */
  ghost predicate Ranked(ls: seq<Link>, rank: map<string, nat>) {
    forall i :: 0 <= i < |ls| && ls[i].parentId.Some? ==>
      RankOf(rank, ls[i].id) < RankOf(rank, ls[i].parentId.value)
  }

  /** `x` is `root` or a transitive descendant of `root` along parentId links. */
  ghost predicate Reaches(ls: seq<Link>, rank: map<string, nat>, root: string, x: string)
    requires Ranked(ls, rank)
    decreases RankOf(rank, root)
  {
    x == root ||
    exists j :: 0 <= j < |ls| && ls[j].parentId == Some(root) && Reaches(ls, rank, ls[j].id, x)
  }

  /** The entry the walk updates for an id is the first one holding it. */
  ghost predicate IsFirst(ls: seq<Link>, i: int)
    requires 0 <= i < |ls|
  {
    FindIndex(ls, ls[i].id) == i
  }

  /**
   * The indices whose flags the walk started at `root` updates: nothing if
   * `root` is absent; the first entry of `root` when activating; the first
   * entry of every id in the subtree of `root` when deactivating.
   */
  ghost function Touched(ls: seq<Link>, rank: map<string, nat>, root: string, active: bool): set<int>
    requires !active ==> Ranked(ls, rank)
  {
    if FindIndex(ls, root) == -1 then {}
    else set i | 0 <= i < |ls| && IsFirst(ls, i) &&
                 (if active then ls[i].id == root else Reaches(ls, rank, root, ls[i].id))
  }

  /** One visit of the walk: a licence change sets isLicensed (and clears isActive when revoking). */
  function Flagged(f: CesFeature, active: bool, isLicenseChange: bool): CesFeature {
    if isLicenseChange then
      if active then f.(isLicensed := true) else f.(isLicensed := false, isActive := false)
    else
      f.(isActive := active)
  }

  function FlagAt(fs: seq<CesFeature>, touched: set<int>, active: bool, isLicenseChange: bool): (r: seq<CesFeature>)
    ensures |r| == |fs| && Links(r) == Links(fs)
  {
    seq(|fs|, i requires 0 <= i < |fs| => if i in touched then Flagged(fs[i], active, isLicenseChange) else fs[i])
  }

  /** The feature list after `handleToggleFeature(featureId, value, isLicenseChange)`. */
  ghost function Toggled(fs: seq<CesFeature>, featureId: string, value: bool, isLicenseChange: bool,
                         rank: map<string, nat>): seq<CesFeature>
    requires !value ==> Ranked(Links(fs), rank)
  {
    FlagAt(fs, Touched(Links(fs), rank, featureId, value), value, isLicenseChange)
  }

  // ---------------------------------------------------------------------
  // The walk itself, in place on the copied array
  // ---------------------------------------------------------------------

  /** The indices covered once the root and the first `k` children have been visited. */
  ghost function Visited(ls: seq<Link>, rank: map<string, nat>, idx: int, children: seq<string>, k: int): set<int>
    requires Ranked(ls, rank)
    requires 0 <= k <= |children|
  {
    {idx} + set i | 0 <= i < |ls| && IsFirst(ls, i) &&
                    exists m :: 0 <= m < k && Reaches(ls, rank, children[m], ls[i].id)
  }

  lemma FlagAtTwice(fs: seq<CesFeature>, s: set<int>, t: set<int>, isLicenseChange: bool)
    ensures FlagAt(FlagAt(fs, s, false, isLicenseChange), t, false, isLicenseChange)
         == FlagAt(fs, s + t, false, isLicenseChange)
  {
  }

  lemma VisitedStep(ls: seq<Link>, rank: map<string, nat>, idx: int, children: seq<string>, k: int)
    requires Ranked(ls, rank)
    requires 0 <= k < |children|
    requires exists j :: 0 <= j < |ls| && ls[j].id == children[k]
    ensures Visited(ls, rank, idx, children, k) + Touched(ls, rank, children[k], false)
         == Visited(ls, rank, idx, children, k + 1)
  {
    assert FindIndex(ls, children[k]) != -1;
  }

  /** A descendant of a child of `root` is a descendant of `root`. */
  lemma ReachesThroughChild(ls: seq<Link>, rank: map<string, nat>, root: string, j: int, x: string)
    requires Ranked(ls, rank)
    requires 0 <= j < |ls| && ls[j].parentId == Some(root)
    requires Reaches(ls, rank, ls[j].id, x)
    ensures Reaches(ls, rank, root, x)
  {
  }

  /** A proper descendant of `root` descends from one of its children. */
  lemma ReachesSplit(ls: seq<Link>, rank: map<string, nat>, root: string, x: string)
    requires Ranked(ls, rank)
    requires Reaches(ls, rank, root, x) && x != root
    ensures exists j :: 0 <= j < |ls| && ls[j].parentId == Some(root) && Reaches(ls, rank, ls[j].id, x)
  {
  }

  lemma VisitedAll(ls: seq<Link>, rank: map<string, nat>, root: string, idx: int, children: seq<string>)
    requires Ranked(ls, rank)
    requires idx == FindIndex(ls, root) && idx != -1
    requires forall x :: x in children <==> exists j :: 0 <= j < |ls| && ls[j].parentId == Some(root) && ls[j].id == x
    ensures Visited(ls, rank, idx, children, |children|) == Touched(ls, rank, root, false)
  {
    var v := Visited(ls, rank, idx, children, |children|);
    var t := Touched(ls, rank, root, false);
    assert t == set i | 0 <= i < |ls| && IsFirst(ls, i) && Reaches(ls, rank, root, ls[i].id);
    forall i | i in v ensures i in t {
      if i != idx {
        var m :| 0 <= m < |children| && Reaches(ls, rank, children[m], ls[i].id);
        assert children[m] in children;
        var j :| 0 <= j < |ls| && ls[j].parentId == Some(root) && ls[j].id == children[m];
        ReachesThroughChild(ls, rank, root, j, ls[i].id);
      }
    }
    forall i | i in t ensures i in v {
      if ls[i].id != root {
        ReachesSplit(ls, rank, root, ls[i].id);
        var j :| 0 <= j < |ls| && ls[j].parentId == Some(root) && Reaches(ls, rank, ls[j].id, ls[i].id);
        assert ls[j].id in children;
        var m :| 0 <= m < |children| && children[m] == ls[j].id;
      }
    }
  }

  lemma TouchedWhenActivating(ls: seq<Link>, rank: map<string, nat>, root: string)
    requires FindIndex(ls, root) != -1
    ensures Touched(ls, rank, root, true) == {FindIndex(ls, root)}
  {
  }

  lemma FlagOne(fs: seq<CesFeature>, idx: int, active: bool, isLicenseChange: bool)
    requires 0 <= idx < |fs|
    ensures fs[idx := Flagged(fs[idx], active, isLicenseChange)] == FlagAt(fs, {idx}, active, isLicenseChange)
  {
  }

  lemma ChildRanksBelow(ls: seq<Link>, rank: map<string, nat>, parent: string, children: seq<string>, k: int)
    requires Ranked(ls, rank)
    requires children == ChildIds(ls, parent) && 0 <= k < |children|
    ensures RankOf(rank, children[k]) < RankOf(rank, parent)
    ensures exists j :: 0 <= j < |ls| && ls[j].id == children[k]
  {
    assert children[k] in children;
  }

  /**
   * `updateRecursive(id, active)`: update the first entry holding `id` and,
   * when deactivating, recurse into every child with the same
   * `isLicenseChange`.
   */
  method UpdateRecursive(a: array<CesFeature>, id: string, active: bool, isLicenseChange: bool,
                         ghost rank: map<string, nat>)
    requires !active ==> Ranked(Links(a[..]), rank)
    modifies a
    decreases RankOf(rank, id), 1
    ensures a[..] == FlagAt(old(a[..]), Touched(Links(old(a[..])), rank, id, active), active, isLicenseChange)
  {
    ghost var orig := a[..];
    ghost var ls := Links(orig);
    var idx := FindIndex(Links(a[..]), id);
    if idx == -1 {
      assert a[..] == FlagAt(orig, {}, active, isLicenseChange);
      return;
    }
    if isLicenseChange {
      a[idx] := a[idx].(isLicensed := active);
      if !active {
        a[idx] := a[idx].(isActive := false);
      }
    } else {
      a[idx] := a[idx].(isActive := active);
    }
    assert a[idx] == Flagged(orig[idx], active, isLicenseChange);
    assert a[..] == orig[idx := Flagged(orig[idx], active, isLicenseChange)];
    FlagOne(orig, idx, active, isLicenseChange);
    if active {
      TouchedWhenActivating(ls, rank, id);
    } else {
      VisitChildren(a, id, idx, isLicenseChange, rank, orig);
    }
  }

  /** The deactivating walk into each direct child of `id`, one after another. */
  method VisitChildren(a: array<CesFeature>, id: string, idx: int, isLicenseChange: bool,
                       ghost rank: map<string, nat>, ghost orig: seq<CesFeature>)
    requires Ranked(Links(orig), rank)
    requires idx == FindIndex(Links(orig), id) && idx != -1
    requires a[..] == FlagAt(orig, {idx}, false, isLicenseChange)
    modifies a
    decreases RankOf(rank, id), 0
    ensures a[..] == FlagAt(orig, Touched(Links(orig), rank, id, false), false, isLicenseChange)
  {
    ghost var ls := Links(orig);
    var children := ChildIds(Links(a[..]), id);
    assert children == ChildIds(ls, id);
    ghost var done: set<int> := {idx};
    assert done == Visited(ls, rank, idx, children, 0);
    var k := 0;
    while k < |children|
      invariant 0 <= k <= |children|
      invariant done == Visited(ls, rank, idx, children, k)
      invariant a[..] == FlagAt(orig, done, false, isLicenseChange)
    {
      ChildRanksBelow(ls, rank, id, children, k);
      ghost var sub := Touched(ls, rank, children[k], false);
      UpdateRecursive(a, children[k], false, isLicenseChange, rank);
      FlagAtTwice(orig, done, sub, isLicenseChange);
      VisitedStep(ls, rank, idx, children, k);
      done := done + sub;
      k := k + 1;
    }
    VisitedAll(ls, rank, id, idx, children);
  }

  /**
   * `handleToggleFeature`: copy the feature list, walk it from `featureId`,
   * and hand the merchant with the new list to `onUpdateMerchant`.
   */
  method HandleToggleFeature(m: Merchant, featureId: string, value: bool, isLicenseChange: bool,
                             ghost rank: map<string, nat>)
    returns (updated: Merchant)
    requires !value ==> Ranked(Links(m.cesConfig.features), rank)
    ensures updated == m.(cesConfig := m.cesConfig.(features :=
              Toggled(m.cesConfig.features, featureId, value, isLicenseChange, rank)))
  {
    var fs := m.cesConfig.features;
    var a := new CesFeature[|fs|](i requires 0 <= i < |fs| => fs[i]);
    assert a[..] == fs;
    UpdateRecursive(a, featureId, value, isLicenseChange, rank);
    updated := m.(cesConfig := m.cesConfig.(features := a[..]));
  }

  // ---------------------------------------------------------------------
  // What the cascade does
  // ---------------------------------------------------------------------

  /** Toggling an id that no feature holds changes nothing. */
  lemma ToggleUnknownIdIsNoop(fs: seq<CesFeature>, featureId: string, value: bool, isLicenseChange: bool,
                              rank: map<string, nat>)
    requires !value ==> Ranked(Links(fs), rank)
    requires forall i :: 0 <= i < |fs| ==> fs[i].id != featureId
    ensures Toggled(fs, featureId, value, isLicenseChange, rank) == fs
  {
    assert FindIndex(Links(fs), featureId) == -1;
  }

  /** A merchant activation sets isActive on the target's entry only; children are left as they were. */
  lemma ActivationSetsOnlyTarget(fs: seq<CesFeature>, featureId: string, rank: map<string, nat>)
    ensures var r := Toggled(fs, featureId, true, false, rank);
      |r| == |fs| &&
      forall i :: 0 <= i < |fs| ==>
        r[i] == if i == FindIndex(Links(fs), featureId) then fs[i].(isActive := true) else fs[i]
  {
    if FindIndex(Links(fs), featureId) != -1 {
      TouchedWhenActivating(Links(fs), rank, featureId);
    }
  }

  /** Granting a licence sets isLicensed on the target's entry only and keeps its isActive. */
  lemma GrantSetsOnlyTargetLicence(fs: seq<CesFeature>, featureId: string, rank: map<string, nat>)
    ensures var r := Toggled(fs, featureId, true, true, rank);
      |r| == |fs| &&
      forall i :: 0 <= i < |fs| ==>
        r[i] == if i == FindIndex(Links(fs), featureId) then fs[i].(isLicensed := true) else fs[i]
  {
    if FindIndex(Links(fs), featureId) != -1 {
      TouchedWhenActivating(Links(fs), rank, featureId);
    }
  }

  /**
   * Deactivation clears isActive on the target and on every transitive
   * descendant (the first entry of each id) and changes nothing else.
   */
  lemma DeactivationCascades(fs: seq<CesFeature>, featureId: string, rank: map<string, nat>)
    requires Ranked(Links(fs), rank)
    requires exists k :: 0 <= k < |fs| && fs[k].id == featureId
    ensures var r := Toggled(fs, featureId, false, false, rank);
      |r| == |fs| &&
      forall i :: 0 <= i < |fs| ==>
        r[i] == if IsFirst(Links(fs), i) && Reaches(Links(fs), rank, featureId, fs[i].id)
                then fs[i].(isActive := false) else fs[i]
  {
    var k :| 0 <= k < |fs| && fs[k].id == featureId;
    assert Links(fs)[k].id == featureId;
  }

  /**
   * Revoking a licence clears both isLicensed and isActive on the target and
   * on every transitive descendant, because the recursion passes the same
   * isLicenseChange down; nothing else changes.
   */
  lemma RevocationCascades(fs: seq<CesFeature>, featureId: string, rank: map<string, nat>)
    requires Ranked(Links(fs), rank)
    requires exists k :: 0 <= k < |fs| && fs[k].id == featureId
    ensures var r := Toggled(fs, featureId, false, true, rank);
      |r| == |fs| &&
      forall i :: 0 <= i < |fs| ==>
        r[i] == if IsFirst(Links(fs), i) && Reaches(Links(fs), rank, featureId, fs[i].id)
                then fs[i].(isLicensed := false, isActive := false) else fs[i]
  {
    var k :| 0 <= k < |fs| && fs[k].id == featureId;
    assert Links(fs)[k].id == featureId;
  }

  /** Descent along parentId links is transitive. */
  lemma {:induction false} ReachesTransitive(ls: seq<Link>, rank: map<string, nat>, x: string, y: string, z: string)
    requires Ranked(ls, rank)
    requires Reaches(ls, rank, x, y) && Reaches(ls, rank, y, z)
    ensures Reaches(ls, rank, x, z)
    decreases RankOf(rank, x)
  {
    if y != x {
      var j :| 0 <= j < |ls| && ls[j].parentId == Some(x) && Reaches(ls, rank, ls[j].id, y);
      ReachesTransitive(ls, rank, ls[j].id, y, z);
    }
  }

  /** A proper descendant ranks strictly below its ancestor. */
  lemma {:induction false} DescendantRanksBelow(ls: seq<Link>, rank: map<string, nat>, x: string, y: string)
    requires Ranked(ls, rank)
    requires Reaches(ls, rank, x, y)
    ensures y == x || RankOf(rank, y) < RankOf(rank, x)
    decreases RankOf(rank, x)
  {
    if y != x {
      var j :| 0 <= j < |ls| && ls[j].parentId == Some(x) && Reaches(ls, rank, ls[j].id, y);
      DescendantRanksBelow(ls, rank, ls[j].id, y);
    }
  }

  /**
   * Under a ranking no feature's parent descends from the feature itself, so
   * the cascade can never loop: the ranking excludes exactly the parentId cycles.
   */
  lemma RankedHasNoParentCycle(ls: seq<Link>, rank: map<string, nat>, j: int)
    requires Ranked(ls, rank)
    requires 0 <= j < |ls| && ls[j].parentId.Some?
    ensures !Reaches(ls, rank, ls[j].id, ls[j].parentId.value)
  {
    if Reaches(ls, rank, ls[j].id, ls[j].parentId.value) {
      DescendantRanksBelow(ls, rank, ls[j].id, ls[j].parentId.value);
    }
  }

  /** When a feature is deactivated, every child of a child (and so on) ends inactive. */
  lemma GrandchildOfDeactivatedIsInactive(fs: seq<CesFeature>, featureId: string, isLicenseChange: bool,
                                          rank: map<string, nat>, c: int, g: int)
    requires Ranked(Links(fs), rank)
    requires exists k :: 0 <= k < |fs| && fs[k].id == featureId
    requires 0 <= c < |fs| && fs[c].parentId == Some(featureId)
    requires 0 <= g < |fs| && fs[g].parentId == Some(fs[c].id) && IsFirst(Links(fs), g)
    ensures !Toggled(fs, featureId, false, isLicenseChange, rank)[g].isActive
  {
    var ls := Links(fs);
    var k :| 0 <= k < |fs| && fs[k].id == featureId;
    assert ls[k].id == featureId;
    assert ls[g].parentId == Some(ls[c].id) && Reaches(ls, rank, ls[g].id, ls[g].id);
    assert Reaches(ls, rank, ls[c].id, ls[g].id);
    assert ls[c].parentId == Some(featureId);
    assert Reaches(ls, rank, featureId, ls[g].id);
  }

  // ---------------------------------------------------------------------
  // Template edits on the selected feature
  // ---------------------------------------------------------------------

  /** The template field an editor control writes. */
  datatype TemplateField =
    | Subject(subject: string)
    | Body(body: string)
    | BannerImage(url: string)
    | Attachments(list: seq<Attachment>)

  function WithField(t: EmailTemplate, e: TemplateField): EmailTemplate {
    match e
    case Subject(v) => t.(subject := v)
    case Body(v) => t.(body := v)
    case BannerImage(v) => t.(bannerImage := Some(v))
    case Attachments(v) => t.(attachments := Some(v))
  }

  /** The feature whose id is selected, else the first feature, else none. */
  function SelectedFeature(fs: seq<CesFeature>, selectedId: string): (r: Option<CesFeature>)
    ensures r.None? <==> |fs| == 0
    ensures forall i :: 0 <= i < |fs| && fs[i].id == selectedId && (forall j :: 0 <= j < i ==> fs[j].id != selectedId)
              ==> r == Some(fs[i])
    ensures (forall i :: 0 <= i < |fs| ==> fs[i].id != selectedId) && |fs| > 0 ==> r == Some(fs[0])
  {
    var k := FindIndex(Links(fs), selectedId);
    if k != -1 then Some(fs[k])
    else if |fs| > 0 then Some(fs[0])
    else None
  }

  /** `handleTemplateUpdate(field, val)`: the features list after the edit. */
  function UpdateTemplate(fs: seq<CesFeature>, selectedId: string, e: TemplateField): seq<CesFeature> {
    if SelectedFeature(fs, selectedId).None? then fs
    else seq(|fs|, i requires 0 <= i < |fs| =>
               if fs[i].id == selectedId then fs[i].(template := WithField(fs[i].template, e)) else fs[i])
  }

  function HandleTemplateUpdate(m: Merchant, selectedId: string, e: TemplateField): Merchant {
    m.(cesConfig := m.cesConfig.(features := UpdateTemplate(m.cesConfig.features, selectedId, e)))
  }

  /** A template edit changes only the template of features whose id is the selected one. */
  lemma TemplateUpdateTouchesOnlySelected(fs: seq<CesFeature>, selectedId: string, e: TemplateField)
    ensures var r := UpdateTemplate(fs, selectedId, e);
      |r| == |fs| &&
      (forall i :: 0 <= i < |fs| && fs[i].id != selectedId ==> r[i] == fs[i]) &&
      (forall i :: 0 <= i < |fs| && fs[i].id == selectedId ==>
         r[i] == fs[i].(template := WithField(fs[i].template, e)))
  {
  }

  /** If no feature has the selected id, the list is unchanged, although the editor shows `features[0]`. */
  lemma TemplateUpdateWithoutMatchIsNoop(fs: seq<CesFeature>, selectedId: string, e: TemplateField)
    requires forall i :: 0 <= i < |fs| ==> fs[i].id != selectedId
    ensures UpdateTemplate(fs, selectedId, e) == fs
  {
  }

  /** A template edit leaves everything but the feature list of the merchant as it was. */
  lemma TemplateUpdateKeepsMerchant(m: Merchant, selectedId: string, e: TemplateField)
    ensures var r := HandleTemplateUpdate(m, selectedId, e);
      r.(cesConfig := m.cesConfig) == m && r.cesConfig.marketingPeriod == m.cesConfig.marketingPeriod
  {
  }

  // ---------------------------------------------------------------------
  // Attachments
  // ---------------------------------------------------------------------

  function AttachmentsOf(f: CesFeature): seq<Attachment> {
    f.template.attachments.GetOr([])
  }

  /** The attachments without any that carry `id`. */
  function WithoutAttachment(atts: seq<Attachment>, id: string): seq<Attachment> {
    if |atts| == 0 then []
    else (if atts[0].id != id then [atts[0]] else []) + WithoutAttachment(atts[1..], id)
  }

  /**
   * `addAttachment`: append `newAtt` to the selected feature's attachments.
   * With an empty feature list `selectedFeature` is undefined and reading its
   * template throws.
   */
  function AddAttachment(fs: seq<CesFeature>, selectedId: string, newAtt: Attachment): Result<seq<CesFeature>> {
    match SelectedFeature(fs, selectedId)
    case None => Thrown("TypeError: selectedFeature is undefined")
    case Some(sel) => Ok(UpdateTemplate(fs, selectedId, Attachments(AttachmentsOf(sel) + [newAtt])))
  }

  /** `removeAttachment(id)`: drop every attachment with that id from the selected feature. */
  function RemoveAttachment(fs: seq<CesFeature>, selectedId: string, attId: string): Result<seq<CesFeature>> {
    match SelectedFeature(fs, selectedId)
    case None => Thrown("TypeError: selectedFeature is undefined")
    case Some(sel) => Ok(UpdateTemplate(fs, selectedId, Attachments(WithoutAttachment(AttachmentsOf(sel), attId))))
  }

  /** The filter keeps exactly the attachments with another id. */
  lemma {:induction false} WithoutAttachmentMembers(atts: seq<Attachment>, id: string)
    ensures forall a :: a in WithoutAttachment(atts, id) <==> a in atts && a.id != id
  {
    if |atts| > 0 {
      WithoutAttachmentMembers(atts[1..], id);
      assert atts == [atts[0]] + atts[1..];
    }
  }

  /** The filter keeps the order: filtering a concatenation concatenates the filtered parts. */
  lemma {:induction false} WithoutAttachmentSplits(xs: seq<Attachment>, ys: seq<Attachment>, id: string)
    ensures WithoutAttachment(xs + ys, id) == WithoutAttachment(xs, id) + WithoutAttachment(ys, id)
  {
    if |xs| > 0 {
      var head := if xs[0].id != id then [xs[0]] else [];
      assert (xs + ys)[0] == xs[0];
      assert (xs + ys)[1..] == xs[1..] + ys;
      assert WithoutAttachment(xs + ys, id) == head + WithoutAttachment(xs[1..] + ys, id);
      WithoutAttachmentSplits(xs[1..], ys, id);
      assert WithoutAttachment(xs, id) == head + WithoutAttachment(xs[1..], id);
    } else {
      assert xs + ys == ys;
    }
  }

  /** Removing an id no attachment has leaves the list unchanged. */
  lemma {:induction false} WithoutAbsentAttachment(atts: seq<Attachment>, id: string)
    requires forall i :: 0 <= i < |atts| ==> atts[i].id != id
    ensures WithoutAttachment(atts, id) == atts
  {
    if |atts| > 0 {
      WithoutAbsentAttachment(atts[1..], id);
      assert atts == [atts[0]] + atts[1..];
    }
  }

  /** Removing an attachment just added under a fresh id restores the list. */
  lemma RemoveUndoesAdd(atts: seq<Attachment>, newAtt: Attachment)
    requires forall i :: 0 <= i < |atts| ==> atts[i].id != newAtt.id
    ensures WithoutAttachment(atts + [newAtt], newAtt.id) == atts
  {
    WithoutAttachmentSplits(atts, [newAtt], newAtt.id);
    WithoutAbsentAttachment(atts, newAtt.id);
  }

  /**
   * `addAttachment` appends exactly one attachment at the end of the selected
   * feature's list; every feature with the selected id gets that same list,
   * built from the first one, and keeps its other fields.
   */
  lemma AddAttachmentAppends(fs: seq<CesFeature>, selectedId: string, newAtt: Attachment)
    requires exists i :: 0 <= i < |fs| && fs[i].id == selectedId
    ensures var k := FindIndex(Links(fs), selectedId);
      var r := AddAttachment(fs, selectedId, newAtt);
      0 <= k < |fs| && r.Ok? && |r.value| == |fs| &&
      AttachmentsOf(r.value[k]) == AttachmentsOf(fs[k]) + [newAtt] &&
      (forall i :: 0 <= i < |fs| && fs[i].id == selectedId ==>
        r.value[i] == fs[i].(template := fs[i].template.(attachments := Some(AttachmentsOf(fs[k]) + [newAtt])))) &&
      (forall i :: 0 <= i < |fs| && fs[i].id != selectedId ==> r.value[i] == fs[i])
  {
    var i :| 0 <= i < |fs| && fs[i].id == selectedId;
    assert Links(fs)[i].id == selectedId;
  }

  /**
   * `removeAttachment` filters the selected feature's list; every feature with
   * the selected id gets that filtered list, built from the first one, and
   * keeps its other fields; other features are left alone.
   */
  lemma RemoveAttachmentFilters(fs: seq<CesFeature>, selectedId: string, attId: string)
    requires exists i :: 0 <= i < |fs| && fs[i].id == selectedId
    ensures var k := FindIndex(Links(fs), selectedId);
      var r := RemoveAttachment(fs, selectedId, attId);
      0 <= k < |fs| && r.Ok? && |r.value| == |fs| &&
      AttachmentsOf(r.value[k]) == WithoutAttachment(AttachmentsOf(fs[k]), attId) &&
      (forall i :: 0 <= i < |fs| && fs[i].id == selectedId ==>
        r.value[i] == fs[i].(template := fs[i].template.(attachments := Some(WithoutAttachment(AttachmentsOf(fs[k]), attId))))) &&
      (forall i :: 0 <= i < |fs| && fs[i].id != selectedId ==> r.value[i] == fs[i])
  {
    var i :| 0 <= i < |fs| && fs[i].id == selectedId;
    assert Links(fs)[i].id == selectedId;
  }

  /** With no feature at all, both attachment handlers throw. */
  lemma AttachmentHandlersThrowOnEmptyList(selectedId: string, newAtt: Attachment, attId: string)
    ensures AddAttachment([], selectedId, newAtt).Thrown?
    ensures RemoveAttachment([], selectedId, attId).Thrown?
  {
  }

  // ---------------------------------------------------------------------
  // Loyalty configuration
  // ---------------------------------------------------------------------

  /** `Partial<LoyaltyConfig>`: a field is present when it is Some. */
  datatype LoyaltyUpdate = LoyaltyUpdate(
    kind: Option<LoyaltyKind>,
    threshold: Option<int>,
    reward: Option<string>,
    stampDesign: Option<StampDesign>,
    couponDesign: Option<CouponDesign>)

  const NoUpdate := LoyaltyUpdate(None, None, None, None, None)

  /** The loyalty settings with every present update written over them. */
  function MergeLoyalty(c: LoyaltyConfig, u: LoyaltyUpdate): LoyaltyConfig {
    LoyaltyConfig(
      u.kind.GetOr(c.kind),
      u.threshold.GetOr(c.threshold),
      u.reward.GetOr(c.reward),
      if u.stampDesign.Some? then u.stampDesign else c.stampDesign,
      if u.couponDesign.Some? then u.couponDesign else c.couponDesign)
  }

  function HandleLoyaltyUpdate(m: Merchant, u: LoyaltyUpdate): Merchant {
    m.(loyaltyConfig := MergeLoyalty(m.loyaltyConfig, u))
  }

  /** Applying `u1` and then `u2` is applying their field-wise combination, `u2` winning. */
  function ThenUpdate(u1: LoyaltyUpdate, u2: LoyaltyUpdate): LoyaltyUpdate {
    LoyaltyUpdate(
      if u2.kind.Some? then u2.kind else u1.kind,
      if u2.threshold.Some? then u2.threshold else u1.threshold,
      if u2.reward.Some? then u2.reward else u1.reward,
      if u2.stampDesign.Some? then u2.stampDesign else u1.stampDesign,
      if u2.couponDesign.Some? then u2.couponDesign else u1.couponDesign)
  }

  /** The "visit" program card: type, threshold, reward and stamp design, and no coupon design. */
  const ChooseVisitProgram := LoyaltyUpdate(Some(Visit), Some(10), Some("Free Item"),
                                            Some(StampDesign(10, "#10b981", "Leaf")), None)

  /** The "spend" program card: type, threshold, reward and coupon design, and no stamp design. */
  const ChooseSpendProgram := LoyaltyUpdate(Some(Spend), Some(100), Some("Discount Coupon"), None,
                                            Some(CouponDesign("#10b981", "#ffffff", "10%", "SAVE")))

  /** A loyalty update replaces exactly the fields present in it, and the merchant's other fields stay. */
  lemma LoyaltyUpdateReplacesPresentFields(m: Merchant, u: LoyaltyUpdate)
    ensures var r := HandleLoyaltyUpdate(m, u);
      r.(loyaltyConfig := m.loyaltyConfig) == m &&
      (u.kind.Some? ==> r.loyaltyConfig.kind == u.kind.value) &&
      (u.kind.None? ==> r.loyaltyConfig.kind == m.loyaltyConfig.kind) &&
      (u.threshold.Some? ==> r.loyaltyConfig.threshold == u.threshold.value) &&
      (u.threshold.None? ==> r.loyaltyConfig.threshold == m.loyaltyConfig.threshold) &&
      (u.reward.Some? ==> r.loyaltyConfig.reward == u.reward.value) &&
      (u.reward.None? ==> r.loyaltyConfig.reward == m.loyaltyConfig.reward) &&
      (u.stampDesign.Some? ==> r.loyaltyConfig.stampDesign == u.stampDesign) &&
      (u.stampDesign.None? ==> r.loyaltyConfig.stampDesign == m.loyaltyConfig.stampDesign) &&
      (u.couponDesign.Some? ==> r.loyaltyConfig.couponDesign == u.couponDesign) &&
      (u.couponDesign.None? ==> r.loyaltyConfig.couponDesign == m.loyaltyConfig.couponDesign)
  {
  }

  /** An empty update is the identity, and applying an update twice is applying it once. */
  lemma LoyaltyUpdateIdempotent(c: LoyaltyConfig, u: LoyaltyUpdate)
    ensures MergeLoyalty(c, NoUpdate) == c
    ensures MergeLoyalty(MergeLoyalty(c, u), u) == MergeLoyalty(c, u)
  {
  }

  /** Two successive updates compose into one. */
  lemma LoyaltyUpdatesCompose(c: LoyaltyConfig, u1: LoyaltyUpdate, u2: LoyaltyUpdate)
    ensures MergeLoyalty(MergeLoyalty(c, u1), u2) == MergeLoyalty(c, ThenUpdate(u1, u2))
  {
  }

  /** Switching program keeps the other program's design: choosing "visit" leaves the coupon design in place. */
  lemma ChoosingProgramKeepsOtherDesign(c: LoyaltyConfig)
    ensures MergeLoyalty(c, ChooseVisitProgram).couponDesign == c.couponDesign
    ensures MergeLoyalty(c, ChooseSpendProgram).stampDesign == c.stampDesign
    ensures MergeLoyalty(c, ChooseVisitProgram).kind == Visit && MergeLoyalty(c, ChooseSpendProgram).kind == Spend
  {
  }

  // ---------------------------------------------------------------------
  // Preview placeholders
  // ---------------------------------------------------------------------

  /** `pat` occurs in `s` at position `k`. */
  predicate OccursAt(s: string, pat: string, k: int) {
    0 <= k && k + |pat| <= |s| && s[k..k + |pat|] == pat
  }

  /** `String.prototype.replace` with a string pattern: only the first occurrence is replaced. */
  function ReplaceFirst(s: string, pat: string, rep: string): string
    decreases |s|
  {
    if pat <= s then rep + s[|pat|..]
    else if |s| == 0 then s
    else [s[0]] + ReplaceFirst(s[1..], pat, rep)
  }

  function PreviewSubject(subject: string): string {
    ReplaceFirst(subject, "{{customer_name}}", "Liam")
  }

  function PreviewBody(body: string): string {
    ReplaceFirst(ReplaceFirst(body, "{{customer_name}}", "Liam"), "{{transaction_id}}", "TX-DESK-4521")
  }

  lemma PrefixIsOccurrenceAtZero(s: string, pat: string)
    ensures pat <= s <==> OccursAt(s, pat, 0)
  {
    if pat <= s { assert s[0..|pat|] == pat; }
  }

  lemma OccursAtShift(s: string, pat: string, k: int)
    requires |s| > 0 && k >= 0
    ensures OccursAt(s[1..], pat, k) <==> OccursAt(s, pat, k + 1)
  {
    if k + 1 + |pat| <= |s| {
      assert s[1..][k..k + |pat|] == s[k + 1..k + 1 + |pat|];
    }
  }

  /** Without an occurrence the text is returned unchanged. */
  lemma {:induction false} ReplaceFirstWithoutOccurrence(s: string, pat: string, rep: string)
    requires forall k :: 0 <= k <= |s| ==> !OccursAt(s, pat, k)
    ensures ReplaceFirst(s, pat, rep) == s
    decreases |s|
  {
    PrefixIsOccurrenceAtZero(s, pat);
    assert !OccursAt(s, pat, 0);
    if |s| > 0 {
      forall k | 0 <= k <= |s[1..]| ensures !OccursAt(s[1..], pat, k) {
        OccursAtShift(s, pat, k);
      }
      ReplaceFirstWithoutOccurrence(s[1..], pat, rep);
      assert s == [s[0]] + s[1..];
    }
  }

  /** The first occurrence, and only it, is replaced; later occurrences stay. */
  lemma {:induction false} ReplaceFirstAtFirstOccurrence(s: string, pat: string, rep: string, k: int)
    requires OccursAt(s, pat, k)
    requires forall j :: 0 <= j < k ==> !OccursAt(s, pat, j)
    ensures ReplaceFirst(s, pat, rep) == s[..k] + rep + s[k + |pat|..]
    decreases k
  {
    PrefixIsOccurrenceAtZero(s, pat);
    if k > 0 {
      var t := s[1..];
      OccursAtShift(s, pat, k - 1);
      forall j | 0 <= j < k - 1 ensures !OccursAt(t, pat, j) {
        OccursAtShift(s, pat, j);
      }
      ReplaceFirstAtFirstOccurrence(t, pat, rep, k - 1);
      assert ReplaceFirst(s, pat, rep) == [s[0]] + ReplaceFirst(t, pat, rep);
      ConsSplit(s, k, |pat|, rep);
    }
  }

  lemma ConsSplit(s: string, k: int, n: nat, rep: string)
    requires 0 < k && k + n <= |s|
    ensures [s[0]] + (s[1..][..k - 1] + rep + s[1..][k - 1 + n..]) == s[..k] + rep + s[k + n..]
  {
    assert s[1..][..k - 1] == s[1..k];
    assert s[1..][k - 1 + n..] == s[k + n..];
    assert s[..k] == [s[0]] + s[1..k];
  }
}
