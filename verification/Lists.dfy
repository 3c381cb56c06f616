/** Lists of names without their repetitions. */
module Lists {

  /** The elements of a list, each where it occurs first. */
  function Firsts(list: seq<string>): seq<string> {
    if list == [] then []
    else
      var init := Firsts(list[..|list| - 1]);
      if list[|list| - 1] in init then init else init + [list[|list| - 1]]
  }

  /** All elements, each once, and in the order of their first occurrences. */
  lemma {:induction false} FirstsInOrder(list: seq<string>)
    ensures forall x :: x in Firsts(list) <==> x in list
    ensures forall i, j :: 0 <= i < j < |Firsts(list)| ==> Firsts(list)[i] != Firsts(list)[j]
    ensures forall i, j, q :: 0 <= i < j < |Firsts(list)| && 0 <= q < |list| && list[q] == Firsts(list)[j] ==>
      Firsts(list)[i] in list[..q]
  {
    if list != [] {
      var n := |list| - 1;
      var init := Firsts(list[..n]);
      FirstsInOrder(list[..n]);
      assert list == list[..n] + [list[n]];
      assert forall i :: 0 <= i < |init| ==> init[i] in list[..n];
      forall i, j, q | 0 <= i < j < |Firsts(list)| && 0 <= q < |list| && list[q] == Firsts(list)[j]
        ensures Firsts(list)[i] in list[..q]
      {
        assert Firsts(list)[i] == init[i];
        if q < n {
          assert list[..n][q] in init && list[..n][..q] == list[..q];
          assert list[..n][q] == init[j];
        } else {
          assert list[..q] == list[..n];
        }
      }
    }
  }

  /** What follows a list adds its own elements that are new, whatever repetitions the list has. */
  lemma FirstsAfter(a: seq<string>, b: seq<string>, last: string)
    requires Firsts(a) == Firsts(b)
    ensures Firsts(a + [last]) == Firsts(b + [last])
    ensures last in a ==> Firsts(a + [last]) == Firsts(a)
  {
    FirstsInOrder(a);
    assert (a + [last])[..|a|] == a && (b + [last])[..|b|] == b;
  }
}
