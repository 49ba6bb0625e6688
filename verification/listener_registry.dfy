/**
 * Facts about the cluster's ordered list of attribute listeners and about
 * the callbacks one attribute update fans out to them.
 */
module ListenerRegistry {
  import opened ZclTypes

  /** No listener occurs twice in the list. */
  ghost predicate NoDuplicates(ls: seq<Listener>)
  {
    forall i, j :: 0 <= i < j < |ls| ==> ls[i] != ls[j]
  }

  /** The position of the first occurrence of `l`, as a list's `remove(Object)` finds it. */
  function FirstIndexOf(ls: seq<Listener>, l: Listener): (i: nat)
    requires l in ls
    ensures i < |ls| && ls[i] == l
    ensures l !in ls[..i]
  {
    if ls[0] == l then 0
    else
      var k := FirstIndexOf(ls[1..], l);
      assert ls[..k + 1] == [ls[0]] + ls[1..][..k];
      k + 1
  }

  /** Reference definition of removal: every listener other than `l`, in the original order. */
  function Filtered(ls: seq<Listener>, l: Listener): seq<Listener>
  {
    if ls == [] then []
    else (if ls[0] == l then [] else [ls[0]]) + Filtered(ls[1..], l)
  }

  /** Filtering drops exactly `l` and nothing else. */
  lemma {:induction false} FilteredMembers(ls: seq<Listener>, l: Listener)
    ensures forall x :: x in Filtered(ls, l) <==> x in ls && x != l
  {
    if ls != [] {
      FilteredMembers(ls[1..], l);
      assert ls == [ls[0]] + ls[1..];
    }
  }

  /** A list without `l` is left as it is by filtering. */
  lemma {:induction false} FilteredAbsent(ls: seq<Listener>, l: Listener)
    requires l !in ls
    ensures Filtered(ls, l) == ls
  {
    if ls != [] {
      assert ls[0] != l;
      FilteredAbsent(ls[1..], l);
      assert ls == [ls[0]] + ls[1..];
    }
  }

  /** Filtering keeps a duplicate-free list duplicate-free. */
  lemma {:induction false} FilteredKeepsNoDuplicates(ls: seq<Listener>, l: Listener)
    requires NoDuplicates(ls)
    ensures NoDuplicates(Filtered(ls, l))
  {
    if ls != [] {
      assert NoDuplicates(ls[1..]) by {
        forall i, j | 0 <= i < j < |ls[1..]| ensures ls[1..][i] != ls[1..][j] {
          assert ls[1..][i] == ls[i + 1] && ls[1..][j] == ls[j + 1];
        }
      }
      FilteredKeepsNoDuplicates(ls[1..], l);
      FilteredMembers(ls[1..], l);
      assert ls[0] !in ls[1..] by {
        forall j | 0 <= j < |ls[1..]| ensures ls[1..][j] != ls[0] {
          assert ls[1..][j] == ls[j + 1];
        }
      }
    }
  }

  /**
   * In a list without duplicates, deleting the first occurrence of a
   * present listener (what the list's `remove(Object)` does) is the same as
   * filtering it out: the others keep their relative order.
   */
  lemma {:induction false} RemoveFirstIsFiltered(ls: seq<Listener>, l: Listener)
    requires NoDuplicates(ls) && l in ls
    ensures ls[..FirstIndexOf(ls, l)] + ls[FirstIndexOf(ls, l) + 1..] == Filtered(ls, l)
  {
    var i := FirstIndexOf(ls, l);
    if i == 0 {
      assert ls[1..] == ls[1..][..];
      assert l !in ls[1..] by {
        forall j | 0 <= j < |ls[1..]| ensures ls[1..][j] != l {
          assert ls[1..][j] == ls[j + 1];
        }
      }
      FilteredAbsent(ls[1..], l);
    } else {
      var tail := ls[1..];
      assert NoDuplicates(tail) by {
        forall a, b | 0 <= a < b < |tail| ensures tail[a] != tail[b] {
          assert tail[a] == ls[a + 1] && tail[b] == ls[b + 1];
        }
      }
      assert l in tail by { assert tail[i - 1] == ls[i]; }
      RemoveFirstIsFiltered(tail, l);
      assert FirstIndexOf(tail, l) == i - 1;
      assert ls[..i] + ls[i + 1..] == [ls[0]] + (tail[..i - 1] + tail[i..]);
    }
  }

  /** Appending an absent listener keeps the list duplicate-free. */
  lemma AppendAbsentKeepsNoDuplicates(ls: seq<Listener>, l: Listener)
    requires NoDuplicates(ls) && l !in ls
    ensures NoDuplicates(ls + [l])
  {
  }

  /**
   * The callbacks submitted for one updated attribute: one per registered
   * listener, in registration order.
   */
  function NotificationsFor(ls: seq<Listener>, attributeId: int): (r: seq<Notification>)
    ensures |r| == |ls|
    ensures forall j :: 0 <= j < |ls| ==> r[j] == Notification(ls[j], attributeId)
  {
    if ls == [] then []
    else NotificationsFor(ls[..|ls| - 1], attributeId) + [Notification(ls[|ls| - 1], attributeId)]
  }

  /**
   * With duplicate-free registration, each registered listener receives
   * exactly one callback per update and an unregistered one receives none.
   */
  lemma {:induction false} OneCallbackPerListener(ls: seq<Listener>, attributeId: int, l: Listener)
    requires NoDuplicates(ls)
    ensures multiset(NotificationsFor(ls, attributeId))[Notification(l, attributeId)]
            == if l in ls then 1 else 0
  {
    if ls != [] {
      var init := ls[..|ls| - 1];
      var last := ls[|ls| - 1];
      assert NoDuplicates(init);
      assert last !in init;
      OneCallbackPerListener(init, attributeId, l);
      assert ls == init + [last];
      assert l in ls <==> l in init || l == last;
    }
  }
}
