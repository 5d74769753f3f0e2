/**
 * The live chart's indicator menu (components/ChartVisualizer.tsx): the list of
 * active study identifiers and the toggle that adds or removes one.
 */
module ChartVisualizer {

  /** The studies active when the chart first loads. */
  const InitialIndicators: seq<string> := ["RSI@tv-basicstudies", "MACD@tv-basicstudies"]

  /** `list.filter(i => i !== id)`. */
  function Without(list: seq<string>, id: string): (r: seq<string>)
    ensures id !in r
    ensures forall x :: x != id ==> (x in r <==> x in list)
    ensures |r| <= |list|
  {
    if list == [] then []
    else (if list[0] == id then [] else [list[0]]) + Without(list[1..], id)
  }

  /** Filtering keeps the order of what it keeps: it distributes over concatenation. */
  lemma {:induction false} WithoutConcat(a: seq<string>, b: seq<string>, id: string)
    ensures Without(a + b, id) == Without(a, id) + Without(b, id)
    decreases |a|
  {
    if a == [] {
      assert a + b == b;
    } else {
      var head := if a[0] == id then [] else [a[0]];
      assert (a + b)[0] == a[0];
      assert (a + b)[1..] == a[1..] + b;
      assert Without(a + b, id) == head + Without(a[1..] + b, id);
      WithoutConcat(a[1..], b, id);
      assert Without(a, id) == head + Without(a[1..], id);
      assert head + (Without(a[1..], id) + Without(b, id)) == (head + Without(a[1..], id)) + Without(b, id);
    }
  }

  /** Filtering out an identifier that is not there changes nothing. */
  lemma {:induction false} WithoutAbsent(list: seq<string>, id: string)
    requires id !in list
    ensures Without(list, id) == list
  {
    if list != [] {
      WithoutAbsent(list[1..], id);
      assert list == [list[0]] + list[1..];
    }
  }

  /** `toggleIndicator(id)`: an active study is removed (every copy of it), an
      inactive one is appended at the end. */
  function ToggleIndicator(list: seq<string>, id: string): (r: seq<string>)
    ensures id in r <==> id !in list
    ensures forall x :: x != id ==> (x in r <==> x in list)
    ensures id !in list ==> |r| == |list| + 1 && r[..|list|] == list
  {
    if id in list then Without(list, id) else list + [id]
  }

  /** No identifier appears twice. */
  predicate Distinct(list: seq<string>) {
    forall i, j :: 0 <= i < j < |list| ==> list[i] != list[j]
  }

  /** Filtering keeps a list free of duplicates, and removes exactly one entry
      from such a list that holds the identifier. */
  lemma {:induction false} WithoutDistinct(list: seq<string>, id: string)
    requires Distinct(list)
    ensures Distinct(Without(list, id))
    ensures |Without(list, id)| == if id in list then |list| - 1 else |list|
  {
    if list == [] {
    } else {
      var rest := list[1..];
      assert Distinct(rest);
      WithoutDistinct(rest, id);
      assert list[0] !in rest;
      if list[0] == id {
        WithoutAbsent(rest, id);
      } else {
        var r := [list[0]] + Without(rest, id);
        assert list[0] !in Without(rest, id);
        assert id in list <==> id in rest;
        forall i, j | 0 <= i < j < |r| ensures r[i] != r[j] {
          if i == 0 {
            assert r[j] in Without(rest, id);
          } else {
            assert r[i] == Without(rest, id)[i - 1] && r[j] == Without(rest, id)[j - 1];
          }
        }
      }
    }
  }

  /** A toggle keeps the list free of duplicates and changes its length, the
      count the menu button shows, by exactly one. */
  lemma ToggleKeepsDistinct(list: seq<string>, id: string)
    requires Distinct(list)
    ensures Distinct(ToggleIndicator(list, id))
    ensures |ToggleIndicator(list, id)| == if id in list then |list| - 1 else |list| + 1
  {
    WithoutDistinct(list, id);
    if id !in list {
      var r := list + [id];
      forall i, j | 0 <= i < j < |r| ensures r[i] != r[j] {
        if j == |list| {
          assert r[i] == list[i];
        }
      }
    }
  }

  /** Adding an inactive study and removing it again restores the list. */
  lemma ToggleTwiceRestores(list: seq<string>, id: string)
    requires id !in list
    ensures ToggleIndicator(ToggleIndicator(list, id), id) == list
  {
    WithoutConcat(list, [id], id);
    WithoutAbsent(list, id);
    assert Without([id], id) == [];
  }

  /** The initial list has two distinct studies. */
  lemma InitialIndicatorsDistinct()
    ensures Distinct(InitialIndicators) && |InitialIndicators| == 2
  {
  }
}
