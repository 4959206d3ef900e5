/**
 * The personalisation wizard (eventbuddy_app/app/personalization.tsx): seven
 * question steps (0 to 6), a step counter that may reach 7, the category and
 * language selections, the progress dots, and the grid that lays the category
 * buttons out in rows. Location lookup, sliders and switches are outside the
 * model; the router is recorded in `navigation`.
 */
module PersonalizationWizard {
  import opened Wrappers
  import opened Seqs
  import opened ListToggle

  const TotalSteps := 7

  const AllCategories: seq<string> := [
    "Theater", "Shows & Performances", "Austellungen", "Food & Drinks", "Aktiv & Kreativ",
    "Feste & Festivals", "Sport", "Film", "Kinder & Familien", "Party", "Märkte", "Konzerte & Musik"]

  const Languages: seq<string> := ["Deutsch", "Englisch", "Französisch", "Spanisch", "Italienisch"]

  /** The question each step asks. */
  datatype Screen = CategoryChoice | LocationChoice | RadiusChoice | MoreSettings | LanguageChoice | EventSizeChoice | Ready

  /** renderStep: a screen for each of the steps 0 to 6, nothing otherwise. */
  function RenderStep(step: int): (s: Option<Screen>)
    ensures s.Some? <==> 0 <= step < TotalSteps
    ensures s == Some(CategoryChoice) <==> step == 0
    ensures s == Some(Ready) <==> step == TotalSteps - 1
  {
    if step == 0 then Some(CategoryChoice)
    else if step == 1 then Some(LocationChoice)
    else if step == 2 then Some(RadiusChoice)
    else if step == 3 then Some(MoreSettings)
    else if step == 4 then Some(LanguageChoice)
    else if step == 5 then Some(EventSizeChoice)
    else if step == 6 then Some(Ready)
    else None
  }

  /** The forward button's caption. */
  function ButtonLabel(step: int): (caption: string)
    ensures caption == "Weiter" <==> step < TotalSteps
    ensures caption == "Fertig" <==> step >= TotalSteps
  {
    if step < TotalSteps then "Weiter" else "Fertig"
  }

  /** The progress bar: dot `s` for s in 0..7, lit when s <= step. */
  function ProgressDots(step: int): (dots: seq<bool>)
    ensures |dots| == TotalSteps + 1
    ensures forall s :: 0 <= s <= TotalSteps ==> (dots[s] <==> s <= step)
  {
    seq(TotalSteps + 1, s => s <= step)
  }

  /** How many of the dots are lit. */
  function LitCount(dots: seq<bool>): (n: nat)
    ensures n <= |dots|
  {
    if dots == [] then 0 else LitCount(dots[..|dots| - 1]) + (if dots[|dots| - 1] then 1 else 0)
  }

  lemma {:induction false} LitPrefix(step: int, k: nat)
    requires 0 <= step && k <= TotalSteps + 1
    ensures LitCount(ProgressDots(step)[..k]) == if k <= step + 1 then k else step + 1
  {
    if k > 0 {
      assert ProgressDots(step)[..k][..k - 1] == ProgressDots(step)[..k - 1];
      LitPrefix(step, k - 1);
    }
  }

  /** On step `step` of 0..7, exactly step + 1 dots are lit: the progress bar counts the steps reached. */
  lemma LitDotsCountSteps(step: int)
    requires 0 <= step <= TotalSteps
    ensures LitCount(ProgressDots(step)) == step + 1
  {
    LitPrefix(step, TotalSteps + 1);
    assert ProgressDots(step)[..TotalSteps + 1] == ProgressDots(step);
  }

  function CeilDiv(n: nat, d: nat): (q: nat)
    requires d > 0
    ensures q * d >= n && (q == 0 || (q - 1) * d < n)
  {
    (n + d - 1) / d
  }

  function Min(a: int, b: int): int {
    if a < b then a else b
  }

  /** items.slice(r * numColumns, (r + 1) * numColumns), with slice's clamping at the end. */
  function Row<T>(items: seq<T>, numColumns: nat, r: nat): (row: seq<T>)
  {
    items[Min(r * numColumns, |items|)..Min((r + 1) * numColumns, |items|)]
  }

  /** The first k rows. */
  function Rows<T>(items: seq<T>, numColumns: nat, k: nat): (rows: seq<seq<T>>)
    ensures |rows| == k
  {
    seq(k, r requires 0 <= r => Row(items, numColumns, r))
  }

  /** Grid: Math.ceil(items.length / numColumns) rows. */
  function Grid<T>(items: seq<T>, numColumns: nat): (rows: seq<seq<T>>)
    requires numColumns > 0
    ensures |rows| == CeilDiv(|items|, numColumns)
    ensures forall r :: 0 <= r < |rows| ==> 0 < |rows[r]| <= numColumns
  {
    var rows := Rows(items, numColumns, CeilDiv(|items|, numColumns));
    assert forall r :: 0 <= r < |rows| ==> r * numColumns < |items| by {
      forall r | 0 <= r < |rows| ensures r * numColumns < |items| {
        var q := CeilDiv(|items|, numColumns);
        assert r <= q - 1;
        MulMono(r, q - 1, numColumns);
      }
    }
    rows
  }

  lemma MulMono(a: nat, b: nat, c: nat)
    requires a <= b
    ensures a * c <= b * c
  {
  }

  /** The rows laid end to end. */
  function Concat<T>(rows: seq<seq<T>>): (r: seq<T>)
  {
    if rows == [] then [] else Concat(rows[..|rows| - 1]) + rows[|rows| - 1]
  }

  lemma {:induction false} ConcatRows<T>(items: seq<T>, numColumns: nat, k: nat)
    requires numColumns > 0
    ensures Concat(Rows(items, numColumns, k)) == items[..Min(k * numColumns, |items|)]
  {
    if k > 0 {
      assert Rows(items, numColumns, k)[..k - 1] == Rows(items, numColumns, k - 1);
      ConcatRows(items, numColumns, k - 1);
      MulMono(k - 1, k, numColumns);
    }
  }

  /** The grid's rows hold the items, in order, each exactly once. */
  lemma GridConcat<T>(items: seq<T>, numColumns: nat)
    requires numColumns > 0
    ensures Concat(Grid(items, numColumns)) == items
  {
    ConcatRows(items, numColumns, CeilDiv(|items|, numColumns));
    assert items[..|items|] == items;
  }

  /** The twelve categories fill six rows of two. */
  lemma CategoryGridShape()
    ensures |Grid(AllCategories, 2)| == 6
    ensures forall r :: 0 <= r < 6 ==> |Grid(AllCategories, 2)[r]| == 2
  {
    var g := Grid(AllCategories, 2);
    forall r | 0 <= r < 6 ensures |g[r]| == 2 {
      assert g[r] == Row(AllCategories, 2, r);
    }
  }

  class PersonalizationScreen {
    var step: int
    var selectedCategories: seq<string>
    var preferredLanguages: seq<string>
    /** The router.push calls made so far. */
    var navigation: seq<string>

    ghost predicate Valid()
      reads this
    {
      0 <= step <= TotalSteps
    }

    constructor()
      ensures step == 0 && selectedCategories == [] && preferredLanguages == [] && navigation == []
      ensures Valid()
    {
      step := 0;
      selectedCategories := [];
      preferredLanguages := [];
      navigation := [];
    }

    /** handleNext: forward while below seven steps, then go home without moving. */
    method HandleNext()
      requires Valid()
      modifies this
      ensures Valid()
      ensures old(step) < TotalSteps ==> step == old(step) + 1 && navigation == old(navigation)
      ensures old(step) >= TotalSteps ==> step == old(step) && navigation == old(navigation) + ["/"]
      ensures selectedCategories == old(selectedCategories) && preferredLanguages == old(preferredLanguages)
    {
      if step < TotalSteps {
        step := step + 1;
      } else {
        navigation := navigation + ["/"];
      }
    }

    /** toggleCategory: the category leaves the selection or joins it at the end. */
    method ToggleCategory(category: string)
      modifies this
      ensures selectedCategories == Toggle(old(selectedCategories), category)
      ensures category in selectedCategories <==> category !in old(selectedCategories)
      ensures Filter(selectedCategories, Except(category)) == Filter(old(selectedCategories), Except(category))
      ensures step == old(step) && preferredLanguages == old(preferredLanguages) && navigation == old(navigation)
    {
      ToggleKeepsOthersInOrder(selectedCategories, category);
      selectedCategories := Toggle(selectedCategories, category);
    }

    /** toggleLanguage: the language leaves the selection or joins it at the end. */
    method ToggleLanguage(language: string)
      modifies this
      ensures preferredLanguages == Toggle(old(preferredLanguages), language)
      ensures language in preferredLanguages <==> language !in old(preferredLanguages)
      ensures Filter(preferredLanguages, Except(language)) == Filter(old(preferredLanguages), Except(language))
      ensures step == old(step) && selectedCategories == old(selectedCategories) && navigation == old(navigation)
    {
      ToggleKeepsOthersInOrder(preferredLanguages, language);
      preferredLanguages := Toggle(preferredLanguages, language);
    }
  }

  /**
   * Pressing the forward button `presses` times from a fresh screen: the step
   * stops at seven, where nothing is drawn and the caption reads "Fertig", and
   * every further press goes home once.
   */
  method PressNext(presses: nat) returns (finalStep: int, screen: Option<Screen>, homeVisits: nat)
    ensures finalStep == Min(presses, TotalSteps)
    ensures screen == RenderStep(finalStep)
    ensures presses >= TotalSteps ==> screen.None? && ButtonLabel(finalStep) == "Fertig"
    ensures homeVisits == if presses > TotalSteps then presses - TotalSteps else 0
  {
    var s := new PersonalizationScreen();
    var k := 0;
    while k < presses
      invariant 0 <= k <= presses
      invariant s.Valid() && s.step == Min(k, TotalSteps)
      invariant s.navigation == seq(if k > TotalSteps then k - TotalSteps else 0, _ => "/")
    {
      s.HandleNext();
      k := k + 1;
    }
    finalStep := s.step;
    screen := RenderStep(finalStep);
    homeVisits := |s.navigation|;
  }
}
