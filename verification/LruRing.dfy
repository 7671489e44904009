// The circular list of the buffers. Slot numbers stand for pointers.
module LruRing {
  import opened Slots

  // The list is closed by a head entry, which is the last slot.

  // The k-th entry of the circle that starts and ends at the head.
  function At(q: seq<nat>, head: nat, k: int): (r: nat) {
    if 0 < k <= |q| then q[k - 1] else head
  }

  // Entry k and its successor point at each other.
  predicate Edge(q: seq<nat>, next: seq<nat>, prev: seq<nat>, k: int)
    requires |next| == |prev| > 0 && InRange(q, |next| - 1)
  {
    next[At(q, |next| - 1, k)] == At(q, |next| - 1, k + 1) && prev[At(q, |next| - 1, k + 1)] == At(q, |next| - 1, k)
  }

  ghost predicate Ring(q: seq<nat>, next: seq<nat>, prev: seq<nat>) {
    && |next| == |prev| > 0 && InRange(q, |next| - 1) && Distinct(q)
    && forall k :: 0 <= k <= |q| ==> Edge(q, next, prev, k)
  }

  lemma AtDiffers(q: seq<nat>, head: nat, i: nat, j: nat)
    requires Distinct(q) && InRange(q, head) && i < j <= |q| + 1 && !(i == 0 && j == |q| + 1)
    ensures At(q, head, i) != At(q, head, j)
  {
  }

  // brelse(), first half: the neighbours of q[m] point at each other.
  lemma UnlinkWorks(q: seq<nat>, next: seq<nat>, prev: seq<nat>, m: nat)
    requires Ring(q, next, prev) && m < |q|
    ensures next[q[m]] == At(q, |next| - 1, m + 2) && prev[q[m]] == At(q, |next| - 1, m)
    ensures Ring(q[..m] + q[m + 1..], next[prev[q[m]] := next[q[m]]], prev[next[q[m]] := prev[q[m]]])
  {
    var h := |next| - 1;
    var r := q[..m] + q[m + 1..];
    assert Edge(q, next, prev, m) && Edge(q, next, prev, m + 1);
    var before, after := At(q, h, m), At(q, h, m + 2);
    forall i, j | 0 <= i < j < |r| ensures r[i] != r[j] {
      assert r[i] == q[if i < m then i else i + 1] && r[j] == q[if j < m then j else j + 1];
    }
    var n2, p2 := next[before := after], prev[after := before];
    forall k | 0 <= k <= |r| ensures Edge(r, n2, p2, k) {
      UnlinkStep(q, next, prev, m, k);
    }
  }

  lemma UnlinkStep(q: seq<nat>, next: seq<nat>, prev: seq<nat>, m: nat, k: nat)
    requires Ring(q, next, prev) && m < |q| && k < |q|
    ensures var h := |next| - 1; var before, after := At(q, h, m), At(q, h, m + 2);
      Edge(q[..m] + q[m + 1..], next[before := after], prev[after := before], k)
  {
    var h := |next| - 1;
    var r := q[..m] + q[m + 1..];
    var i := if k <= m then k else k + 1;
    var j := if k + 1 <= m then k + 1 else k + 2;
    assert At(r, h, k) == At(q, h, i) && At(r, h, k + 1) == At(q, h, j);
    if k != m {
      assert Edge(q, next, prev, i);
      AtDiffers(q, h, if i < m then i else m, if i < m then m else i);
      AtDiffers(q, h, if j < m + 2 then j else m + 2, if j < m + 2 then m + 2 else j);
    }
  }

  // binit() and brelse(), second half: x goes in after the head.
  lemma FrontWorks(q: seq<nat>, next: seq<nat>, prev: seq<nat>, x: nat)
    requires Ring(q, next, prev) && x < |next| - 1 && x !in q
    ensures next[|next| - 1] == At(q, |next| - 1, 1)
    ensures var h := |next| - 1;
      Ring([x] + q, next[x := next[h]][h := x], prev[x := h][next[h] := x])
  {
    var h := |next| - 1;
    var r := [x] + q;
    assert Edge(q, next, prev, 0);
    var n2, p2 := next[x := next[h]][h := x], prev[x := h][next[h] := x];
    forall k | 0 <= k <= |r| ensures Edge(r, n2, p2, k) {
      FrontStep(q, next, prev, x, k);
    }
  }

  lemma FrontStep(q: seq<nat>, next: seq<nat>, prev: seq<nat>, x: nat, k: nat)
    requires Ring(q, next, prev) && x < |next| - 1 && x !in q && k <= |q| + 1
    ensures var h := |next| - 1; var first := At(q, h, 1);
      Edge([x] + q, next[x := first][h := x], prev[x := h][first := x], k)
  {
    var h := |next| - 1;
    assert Edge(q, next, prev, 0);
    if k >= 2 {
      assert At([x] + q, h, k) == At(q, h, k - 1) && At([x] + q, h, k + 1) == At(q, h, k);
      assert Edge(q, next, prev, k - 1);
      AtDiffers(q, h, 0, k - 1);
      AtDiffers(q, h, 1, k);
    }
  }
}
