/**
 * The carbon-offset settings screen (components/CarbonManager.tsx): two
 * switches and the list of selected NGO ids, toggled one id at a time.
 */
module CarbonManager {

  /** The screen's state. */
  datatype OffsetSettings = OffsetSettings(enabled: bool, matching: bool, selectedNgos: seq<string>)

  /** Initial state: both switches on, 'ngo1' and 'ngo2' selected. */
  const Initial := OffsetSettings(true, true, ["ngo1", "ngo2"])

  /** The selection with every occurrence of `id` removed. */
  function Without(xs: seq<string>, id: string): seq<string> {
    if |xs| == 0 then []
    else (if xs[0] != id then [xs[0]] else []) + Without(xs[1..], id)
  }

  /** `toggleNGO`: drop every occurrence of a selected id, append an unselected one. */
  function ToggleNgo(xs: seq<string>, id: string): seq<string> {
    if id in xs then Without(xs, id) else xs + [id]
  }

  function ToggleSelected(s: OffsetSettings, id: string): OffsetSettings {
    s.(selectedNgos := ToggleNgo(s.selectedNgos, id))
  }

  /** The contributions switch. */
  function FlipEnabled(s: OffsetSettings): OffsetSettings {
    s.(enabled := !s.enabled)
  }

  /** The merchant-matching switch. */
  function FlipMatching(s: OffsetSettings): OffsetSettings {
    s.(matching := !s.matching)
  }

  lemma {:induction false} WithoutMembers(xs: seq<string>, id: string)
    ensures forall x :: x in Without(xs, id) <==> x in xs && x != id
  {
    if |xs| > 0 {
      WithoutMembers(xs[1..], id);
      assert xs == [xs[0]] + xs[1..];
    }
  }

  lemma {:induction false} WithoutAppend(xs: seq<string>, ys: seq<string>, id: string)
    ensures Without(xs + ys, id) == Without(xs, id) + Without(ys, id)
  {
    if |xs| == 0 {
      assert xs + ys == ys;
    } else {
      assert (xs + ys)[0] == xs[0] && (xs + ys)[1..] == xs[1..] + ys;
      WithoutAppend(xs[1..], ys, id);
    }
  }

  lemma {:induction false} WithoutAbsent(xs: seq<string>, id: string)
    requires id !in xs
    ensures Without(xs, id) == xs
  {
    if |xs| > 0 {
      assert xs == [xs[0]] + xs[1..];
      WithoutAbsent(xs[1..], id);
    }
  }

  /** After a toggle the id is selected exactly when it was not before; every other id keeps its selection. */
  lemma ToggleFlipsMembership(xs: seq<string>, id: string)
    ensures id in ToggleNgo(xs, id) <==> id !in xs
    ensures forall x :: x != id ==> (x in ToggleNgo(xs, id) <==> x in xs)
  {
    WithoutMembers(xs, id);
  }

  /** Leaving the toggled id aside, the list is the same, in the same order. */
  lemma ToggleKeepsOthersInOrder(xs: seq<string>, id: string)
    ensures Without(ToggleNgo(xs, id), id) == Without(xs, id)
  {
    if id in xs {
      WithoutMembers(xs, id);
      WithoutAbsent(Without(xs, id), id);
    } else {
      WithoutAppend(xs, [id], id);
      assert Without([id], id) == [];
    }
  }

  /** An unselected id appended and toggled again gives back the list exactly. */
  lemma ToggleTwiceAbsentRestores(xs: seq<string>, id: string)
    requires id !in xs
    ensures ToggleNgo(ToggleNgo(xs, id), id) == xs
  {
    WithoutAppend(xs, [id], id);
    WithoutAbsent(xs, id);
    assert Without([id], id) == [];
  }

  /** A selected id toggled twice stays selected but moves to the end, once. */
  lemma ToggleTwicePresentMovesToEnd(xs: seq<string>, id: string)
    requires id in xs
    ensures ToggleNgo(ToggleNgo(xs, id), id) == Without(xs, id) + [id]
  {
    WithoutMembers(xs, id);
  }

  /** Each switch flips its own flag, twice is the identity, and nothing else changes. */
  lemma SwitchesFlipOneFlag(s: OffsetSettings)
    ensures FlipEnabled(s).enabled == !s.enabled && FlipEnabled(s).(enabled := s.enabled) == s
    ensures FlipMatching(s).matching == !s.matching && FlipMatching(s).(matching := s.matching) == s
    ensures FlipEnabled(FlipEnabled(s)) == s && FlipMatching(FlipMatching(s)) == s
  {
  }
}
