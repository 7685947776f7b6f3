/**
 * The symptom checklist of the menstruation tracker: ticking a checkbox toggles that
 * symptom in the list of selected symptoms. A new list is built (never mutated):
 * an absent symptom is appended, a present one is filtered out.
 */
module Symptoms {

  /** `selected.filter((s) => s !== symptom)`. */
  function RemoveAll(selected: seq<string>, symptom: string): (r: seq<string>)
    ensures symptom !in r
    ensures forall t :: t != symptom ==> (t in r <==> t in selected)
    ensures |r| <= |selected|
  {
    if selected == [] then []
    else if selected[0] == symptom then RemoveAll(selected[1..], symptom)
    else [selected[0]] + RemoveAll(selected[1..], symptom)
  }

  /** A checkbox is ticked exactly when its symptom is in the list. */
  predicate IsChecked(selected: seq<string>, symptom: string) {
    symptom in selected
  }

  /** `handleSymptomToggle`: filter out a present symptom, append an absent one. */
  function Toggle(selected: seq<string>, symptom: string): (r: seq<string>)
    ensures IsChecked(r, symptom) <==> !IsChecked(selected, symptom)
    ensures forall t :: t != symptom ==> (IsChecked(r, t) <==> IsChecked(selected, t))
    ensures symptom !in selected ==> r == selected + [symptom]
  {
    if symptom in selected then RemoveAll(selected, symptom) else selected + [symptom]
  }

  /** Filtering keeps every other element with its multiplicity and drops every copy of the symptom. */
  lemma {:induction false} RemoveAllMultiset(selected: seq<string>, symptom: string)
    ensures multiset(RemoveAll(selected, symptom)) == multiset(selected)[symptom := 0]
  {
    if selected != [] {
      RemoveAllMultiset(selected[1..], symptom);
      assert selected == [selected[0]] + selected[1..];
    }
  }

  /** Filtering works piecewise, so the kept elements stay in their original order. */
  lemma {:induction false} RemoveAllConcat(a: seq<string>, b: seq<string>, symptom: string)
    ensures RemoveAll(a + b, symptom) == RemoveAll(a, symptom) + RemoveAll(b, symptom)
  {
    if a != [] {
      assert (a + b)[1..] == a[1..] + b;
      RemoveAllConcat(a[1..], b, symptom);
    } else {
      assert a + b == b;
    }
  }

  /** Filtering out a symptom that is not listed changes nothing. */
  lemma {:induction false} RemoveAllAbsent(selected: seq<string>, symptom: string)
    requires symptom !in selected
    ensures RemoveAll(selected, symptom) == selected
  {
    if selected != [] {
      RemoveAllAbsent(selected[1..], symptom);
      assert selected == [selected[0]] + selected[1..];
    }
  }

  /** Toggling a listed symptom leaves the other symptoms, with their counts, in order. */
  lemma ToggleListed(selected: seq<string>, symptom: string)
    requires symptom in selected
    ensures multiset(Toggle(selected, symptom)) == multiset(selected)[symptom := 0]
  {
    RemoveAllMultiset(selected, symptom);
  }

  predicate NoDuplicates(s: seq<string>) {
    forall i, j :: 0 <= i < j < |s| ==> s[i] != s[j]
  }

  /** Filtering a duplicate-free list leaves it duplicate-free. */
  lemma {:induction false} RemoveAllNoDuplicates(selected: seq<string>, symptom: string)
    requires NoDuplicates(selected)
    ensures NoDuplicates(RemoveAll(selected, symptom))
  {
    if selected != [] {
      var tail := selected[1..];
      assert NoDuplicates(tail) by {
        forall i, j | 0 <= i < j < |tail| ensures tail[i] != tail[j] {
          assert tail[i] == selected[i + 1] && tail[j] == selected[j + 1];
        }
      }
      RemoveAllNoDuplicates(tail, symptom);
      assert selected[0] !in tail by {
        forall j | 0 <= j < |tail| ensures tail[j] != selected[0] {
          assert tail[j] == selected[j + 1];
        }
      }
    }
  }

  /** A list without repeats stays without repeats however often boxes are toggled. */
  lemma ToggleKeepsNoDuplicates(selected: seq<string>, symptom: string)
    requires NoDuplicates(selected)
    ensures NoDuplicates(Toggle(selected, symptom))
  {
    if symptom in selected {
      RemoveAllNoDuplicates(selected, symptom);
    } else {
      var r := selected + [symptom];
      forall i, j | 0 <= i < j < |r| ensures r[i] != r[j] {
        if j == |selected| {
          assert r[i] == selected[i];
        }
      }
    }
  }

  /** Ticking an unticked box and unticking it again restores the list exactly. */
  lemma ToggleTwiceAbsent(selected: seq<string>, symptom: string)
    requires symptom !in selected
    ensures Toggle(Toggle(selected, symptom), symptom) == selected
  {
    RemoveAllConcat(selected, [symptom], symptom);
    RemoveAllAbsent(selected, symptom);
    assert RemoveAll([symptom], symptom) == [];
  }

  /** Unticking a ticked box and ticking it again moves the symptom to the end. */
  lemma ToggleTwicePresent(selected: seq<string>, symptom: string)
    requires symptom in selected
    ensures Toggle(Toggle(selected, symptom), symptom) == RemoveAll(selected, symptom) + [symptom]
  {
  }
}
