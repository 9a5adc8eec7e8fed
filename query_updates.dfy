/**
 * The form-state handlers of App.tsx: the initial state, the single-field
 * update behind `handleStateChange` and the law toggle behind
 * `handleLawChange`. Both handlers are functional updates of the state.
 */
module QueryUpdates {
  import opened Wrappers
  import opened Types
  import opened Constants

  /** The state the form starts in; `outputLanguage` is not given a value. */
  function InitialQueryState(): (s: QueryState)
    ensures s.selectedLaws == [CPC]
    ensures s.audience == "Layperson (in simple terms)"
    ensures s.query == "" && s.queryFocus == GeneralExplanation && s.outputLanguage == None
  {
    QueryState([CPC], AudienceOptions[0], "", QueryFocusOptions[0], None)
  }

  /** The keys of the form state. */
  datatype Key = SelectedLawsKey | AudienceKey | QueryKey | QueryFocusKey | OutputLanguageKey

  /** A field's value: a list of laws, a string, or `undefined`. */
  datatype Value = LawsValue(laws: seq<Law>) | TextValue(text: string) | Undefined

  /** `state[key]`. */
  function Get(s: QueryState, k: Key): Value {
    match k
    case SelectedLawsKey => LawsValue(s.selectedLaws)
    case AudienceKey => TextValue(s.audience)
    case QueryKey => TextValue(s.query)
    case QueryFocusKey => TextValue(s.queryFocus)
    case OutputLanguageKey => if s.outputLanguage.Some? then TextValue(s.outputLanguage.value) else Undefined
  }

  /** The value has the type `QueryState[K]` declares for the key. */
  predicate Fits(k: Key, v: Value) {
    if k == SelectedLawsKey then v.LawsValue? else v.TextValue?
  }

  /** `{ ...prev, [key]: value }`: field `k` becomes `v` and every other field keeps its value. */
  function SetField(s: QueryState, k: Key, v: Value): (r: QueryState)
    requires Fits(k, v)
    ensures Get(r, k) == v
    ensures forall k' :: k' != k ==> Get(r, k') == Get(s, k')
  {
    match k
    case SelectedLawsKey => s.(selectedLaws := v.laws)
    case AudienceKey => s.(audience := v.text)
    case QueryKey => s.(query := v.text)
    case QueryFocusKey => s.(queryFocus := v.text)
    case OutputLanguageKey => s.(outputLanguage := Some(v.text))
  }

  /**
   * `laws.filter(l => l !== law)`: every occurrence of `law` is gone and
   * every other law is kept.
   */
  function RemoveAll(laws: seq<Law>, law: Law): (r: seq<Law>)
    ensures law !in r
    ensures forall x :: x != law ==> (x in r <==> x in laws)
    ensures law in laws ==> |r| < |laws|
    ensures |r| <= |laws|
  {
    if laws == [] then []
    else (if laws[0] == law then [] else [laws[0]]) + RemoveAll(laws[1..], law)
  }

  /** Removal works element by element, so the kept laws stay in their original order. */
  lemma {:induction false} RemoveAllAppend(a: seq<Law>, b: seq<Law>, law: Law)
    ensures RemoveAll(a + b, law) == RemoveAll(a, law) + RemoveAll(b, law)
  {
    if a == [] {
      assert a + b == b;
    } else {
      var head := if a[0] == law then [] else [a[0]];
      assert (a + b)[0] == a[0];
      assert (a + b)[1..] == a[1..] + b;
      calc {
        RemoveAll(a + b, law);
        head + RemoveAll(a[1..] + b, law);
        { RemoveAllAppend(a[1..], b, law); }
        head + (RemoveAll(a[1..], law) + RemoveAll(b, law));
        (head + RemoveAll(a[1..], law)) + RemoveAll(b, law);
        RemoveAll(a, law) + RemoveAll(b, law);
      }
    }
  }

  /** Removing a law that is absent leaves the list as it was. */
  lemma {:induction false} RemoveAllAbsent(laws: seq<Law>, law: Law)
    requires law !in laws
    ensures RemoveAll(laws, law) == laws
  {
    if laws != [] {
      RemoveAllAbsent(laws[1..], law);
      assert [laws[0]] + laws[1..] == laws;
    }
  }

  /** The checkbox toggle: drop every occurrence of a selected law, append an unselected one. */
  function ToggleLaw(laws: seq<Law>, law: Law): (r: seq<Law>)
    ensures law in r <==> law !in laws
    ensures forall x :: x != law ==> (x in r <==> x in laws)
    ensures law in laws ==> |r| < |laws| && r == RemoveAll(laws, law)
    ensures law !in laws ==> r == laws + [law]
  {
    if law in laws then RemoveAll(laws, law) else laws + [law]
  }

  /** `handleLawChange`: the selected laws are toggled and nothing else changes. */
  function ToggleLawIn(s: QueryState, law: Law): (r: QueryState)
    ensures r == SetField(s, SelectedLawsKey, LawsValue(ToggleLaw(s.selectedLaws, law)))
    ensures law in r.selectedLaws <==> law !in s.selectedLaws
    ensures forall k :: k != SelectedLawsKey ==> Get(r, k) == Get(s, k)
  {
    s.(selectedLaws := ToggleLaw(s.selectedLaws, law))
  }

  /** No law is listed twice. */
  predicate NoDuplicates(laws: seq<Law>) {
    forall i, j :: 0 <= i < j < |laws| ==> laws[i] != laws[j]
  }

  lemma {:induction false} RemoveAllNoDuplicates(laws: seq<Law>, law: Law)
    requires NoDuplicates(laws)
    ensures NoDuplicates(RemoveAll(laws, law))
  {
    if laws != [] {
      var t := laws[1..];
      assert NoDuplicates(t) by {
        forall i, j | 0 <= i < j < |t| ensures t[i] != t[j] {
          assert t[i] == laws[i + 1] && t[j] == laws[j + 1];
        }
      }
      RemoveAllNoDuplicates(t, law);
      var rt := RemoveAll(t, law);
      assert laws[0] !in t by {
        forall i | 0 <= i < |t| ensures t[i] != laws[0] {
          assert t[i] == laws[i + 1];
        }
      }
      var r := RemoveAll(laws, law);
      if laws[0] != law {
        assert r == [laws[0]] + rt;
        forall i, j | 0 <= i < j < |r| ensures r[i] != r[j] {
          if i == 0 {
            assert r[j] == rt[j - 1];
          } else {
            assert r[i] == rt[i - 1] && r[j] == rt[j - 1];
          }
        }
      }
    }
  }

  /** A list without repeats keeps that property through a toggle. */
  lemma ToggleNoDuplicates(laws: seq<Law>, law: Law)
    requires NoDuplicates(laws)
    ensures NoDuplicates(ToggleLaw(laws, law))
  {
    if law in laws {
      RemoveAllNoDuplicates(laws, law);
    } else {
      var r := laws + [law];
      forall i, j | 0 <= i < j < |r| ensures r[i] != r[j] {
        if j == |laws| {
          assert r[i] == laws[i];
        } else {
          assert r[i] == laws[i] && r[j] == laws[j];
        }
      }
    }
  }

  /** Ticking an unselected law and unticking it again restores the exact list. */
  lemma ToggleTwiceAbsent(laws: seq<Law>, law: Law)
    requires law !in laws
    ensures ToggleLaw(ToggleLaw(laws, law), law) == laws
  {
    RemoveAllAppend(laws, [law], law);
    RemoveAllAbsent(laws, law);
    assert RemoveAll([law], law) == [] by {
      assert [law][1..] == [];
    }
  }

  /**
   * Unticking a selected law and ticking it again keeps the same set of laws
   * but moves that law to the end of the list.
   */
  lemma ToggleTwicePresent(laws: seq<Law>, law: Law)
    requires law in laws
    ensures ToggleLaw(ToggleLaw(laws, law), law) == RemoveAll(laws, law) + [law]
    ensures forall x :: x in ToggleLaw(ToggleLaw(laws, law), law) <==> x in laws
  {
  }
}
