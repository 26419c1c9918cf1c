/** Filtering lists of waiter nodes by the state of their selects' flags. */
module Filters {
  import opened Options
  import opened Protocol

  /** A node still counts: its select is unclaimed, or was claimed for exactly this node. */
  predicate Live(win: seq<Option<Claim>>, n: Node) {
    n.sel < |win| && (win[n.sel].None? || win[n.sel].value.tok == n.tok)
  }

  /** The nodes whose select is still available, in order. */
  function OpenOf(win: seq<Option<Claim>>, xs: seq<Node>): seq<Node> {
    if xs == [] then [] else (if Open(win, xs[0]) then [xs[0]] else []) + OpenOf(win, xs[1..])
  }

  /** The nodes that still count, in order. */
  function LiveOf(win: seq<Option<Claim>>, xs: seq<Node>): seq<Node> {
    if xs == [] then [] else (if Live(win, xs[0]) then [xs[0]] else []) + LiveOf(win, xs[1..])
  }

  /** The list without the entries of one select. */
  function Prune(xs: seq<Node>, s: nat): seq<Node> {
    if xs == [] then [] else (if xs[0].sel != s then [xs[0]] else []) + Prune(xs[1..], s)
  }

  lemma {:induction false} PrunedOf(xs: seq<Node>, s: nat)
    ensures forall x :: x in Prune(xs, s) ==> x in xs && x.sel != s
  {
    if xs != [] { PrunedOf(xs[1..], s); }
  }

  predicate NoDup(xs: seq<Node>) {
    forall i, j :: 0 <= i < j < |xs| ==> xs[i] != xs[j]
  }

  lemma {:induction false} OpenOfAppend(win: seq<Option<Claim>>, xs: seq<Node>, ys: seq<Node>)
    ensures OpenOf(win, xs + ys) == OpenOf(win, xs) + OpenOf(win, ys)
  {
    if xs == [] {
      assert xs + ys == ys && OpenOf(win, xs) == [];
    } else {
      var o := if Open(win, xs[0]) then [xs[0]] else [];
      assert (xs + ys)[0] == xs[0] && (xs + ys)[1..] == xs[1..] + ys;
      OpenOfAppend(win, xs[1..], ys);
      assert OpenOf(win, xs + ys) == o + (OpenOf(win, xs[1..]) + OpenOf(win, ys));
    }
  }

  lemma {:induction false} LiveOfAppend(win: seq<Option<Claim>>, xs: seq<Node>, ys: seq<Node>)
    ensures LiveOf(win, xs + ys) == LiveOf(win, xs) + LiveOf(win, ys)
  {
    if xs == [] {
      assert xs + ys == ys && LiveOf(win, xs) == [];
    } else {
      var o := if Live(win, xs[0]) then [xs[0]] else [];
      assert (xs + ys)[0] == xs[0] && (xs + ys)[1..] == xs[1..] + ys;
      LiveOfAppend(win, xs[1..], ys);
      assert LiveOf(win, xs + ys) == o + (LiveOf(win, xs[1..]) + LiveOf(win, ys));
    }
  }

  lemma {:induction false} PruneAppend(xs: seq<Node>, ys: seq<Node>, s: nat)
    ensures Prune(xs + ys, s) == Prune(xs, s) + Prune(ys, s)
  {
    if xs == [] {
      assert xs + ys == ys && Prune(xs, s) == [];
    } else {
      var o := if xs[0].sel != s then [xs[0]] else [];
      assert (xs + ys)[0] == xs[0] && (xs + ys)[1..] == xs[1..] + ys;
      PruneAppend(xs[1..], ys, s);
      assert Prune(xs + ys, s) == o + (Prune(xs[1..], s) + Prune(ys, s));
    }
  }

  predicate AnyOpen(win: seq<Option<Claim>>, xs: seq<Node>) {
    exists n :: n in xs && Open(win, n)
  }

  lemma {:induction false} AnyOpenBehind(win: seq<Option<Claim>>, xs: seq<Node>)
    requires xs != [] && !Open(win, xs[0])
    ensures AnyOpen(win, xs) == AnyOpen(win, xs[1..])
  {
    assert xs == [xs[0]] + xs[1..];
  }

  /** Which nodes the filters keep. */
  lemma {:induction false} OpenOfMembers(win: seq<Option<Claim>>, xs: seq<Node>)
    ensures forall n :: n in OpenOf(win, xs) <==> n in xs && Open(win, n)
  {
    if xs != [] {
      OpenOfMembers(win, xs[1..]);
      assert xs == [xs[0]] + xs[1..];
    }
  }

  lemma {:induction false} LiveOfMembers(win: seq<Option<Claim>>, xs: seq<Node>)
    ensures forall n :: n in LiveOf(win, xs) <==> n in xs && Live(win, n)
  {
    if xs != [] {
      LiveOfMembers(win, xs[1..]);
      assert xs == [xs[0]] + xs[1..];
    }
  }

  lemma {:induction false} PruneAbsent(xs: seq<Node>, s: nat)
    requires forall n :: n in xs ==> n.sel != s
    ensures Prune(xs, s) == xs
  {
    if xs != [] {
      assert xs[0] in xs;
      assert forall n :: n in xs[1..] ==> n in xs;
      PruneAbsent(xs[1..], s);
    }
  }

  /** Taking the flag of a select removes its nodes, and only those, from what is open. */
  lemma {:induction false} OpenOfTaken(win: seq<Option<Claim>>, xs: seq<Node>, s: nat, k: Claim)
    requires s < |win|
    ensures OpenOf(win[s := Some(k)], xs) == Prune(OpenOf(win, xs), s)
  {
    if xs != [] {
      OpenOfTaken(win, xs[1..], s, k);
      PruneAppend(if Open(win, xs[0]) then [xs[0]] else [], OpenOf(win, xs[1..]), s);
    }
  }

  /** Removing a node that is not open changes nothing that is open. */
  lemma {:induction false} OpenOfRemove(win: seq<Option<Claim>>, xs: seq<Node>, n: Node)
    requires !Open(win, n)
    ensures OpenOf(win, Remove(xs, n)) == OpenOf(win, xs)
  {
    if xs != [] && xs[0] != n {
      OpenOfRemove(win, xs[1..], n);
      assert Remove(xs, n)[1..] == Remove(xs[1..], n);
    }
  }

  lemma {:induction false} RemoveMembers(xs: seq<Node>, n: Node)
    requires NoDup(xs)
    ensures NoDup(Remove(xs, n))
    ensures forall m :: m in Remove(xs, n) <==> m in xs && m != n
  {
    if xs != [] {
      assert xs == [xs[0]] + xs[1..];
      RemoveMembers(xs[1..], n);
      if xs[0] == n {
        forall m | m in xs[1..] ensures m != n {
          var k :| 0 <= k < |xs[1..]| && xs[1..][k] == m;
          assert xs[k + 1] == m;
        }
      } else {
        assert xs[0] !in xs[1..];
      }
    }
  }

  /** Losers drop out of the order of arrival when a select is claimed; nobody else moves. */
  lemma {:induction false} LiveOfTaken(win: seq<Option<Claim>>, xs: seq<Node>, s: nat, k: Claim)
    requires s < |win| && win[s].None?
    ensures LiveOf(win[s := Some(k)], xs) == LiveOf(win[s := Some(k)], LiveOf(win, xs))
  {
    if xs != [] {
      LiveOfTaken(win, xs[1..], s, k);
      LiveOfAppend(win[s := Some(k)], if Live(win, xs[0]) then [xs[0]] else [], LiveOf(win, xs[1..]));
    }
  }

  lemma {:induction false} LiveOfAllLive(win: seq<Option<Claim>>, xs: seq<Node>)
    requires forall n :: n in xs ==> Live(win, n)
    ensures LiveOf(win, xs) == xs
  {
    if xs != [] {
      assert xs[0] in xs;
      assert forall n :: n in xs[1..] ==> n in xs;
      LiveOfAllLive(win, xs[1..]);
    }
  }

  /** Among open nodes, the losers of a claim are all the nodes of that select but one. */
  lemma {:induction false} LiveOfOpen(win: seq<Option<Claim>>, xs: seq<Node>, s: nat, k: Claim)
    requires s < |win| && Node(s, k.tok) !in xs
    requires forall n :: n in xs ==> Open(win, n)
    ensures LiveOf(win[s := Some(k)], xs) == Prune(xs, s)
  {
    if xs != [] {
      assert xs[0] in xs;
      assert forall n :: n in xs[1..] ==> n in xs;
      LiveOfOpen(win, xs[1..], s, k);
    }
  }

  /** A claim keeps: completed nodes, then waiting open nodes, are the live arrivals. */
  lemma {:induction false} ClaimKeepsOrder(win: seq<Option<Claim>>, done: seq<Node>, list: seq<Node>,
        arrived: seq<Node>, s: nat, k: Claim)
    requires s < |win| && win[s].None?
    requires done + OpenOf(win, list) == LiveOf(win, arrived)
    requires forall n :: n in done ==> n.sel < |win| && win[n.sel].Some? && win[n.sel].value.tok == n.tok
    requires Node(s, k.tok) !in list
    ensures var w := win[s := Some(k)]; done + OpenOf(w, list) == LiveOf(w, arrived)
  {
    var w := win[s := Some(k)];
    OpenOfMembers(win, list);
    calc {
      LiveOf(w, arrived);
      { LiveOfTaken(win, arrived, s, k); }
      LiveOf(w, done + OpenOf(win, list));
      { LiveOfAppend(w, done, OpenOf(win, list)); LiveOfAllLive(w, done); }
      done + LiveOf(w, OpenOf(win, list));
      { LiveOfOpen(win, OpenOf(win, list), s, k); OpenOfTaken(win, list, s, k); }
      done + OpenOf(w, list);
    }
  }

  /** Popping the claimed head moves it from the waiting nodes to the completed ones. */
  lemma {:induction false} ClaimHeadKeepsOrder(win: seq<Option<Claim>>, done: seq<Node>, list: seq<Node>,
        arrived: seq<Node>, k: Claim)
    requires list != [] && Open(win, list[0]) && k.tok == list[0].tok && list[0] !in list[1..]
    requires done + OpenOf(win, list) == LiveOf(win, arrived)
    requires forall n :: n in done ==> n.sel < |win| && win[n.sel].Some? && win[n.sel].value.tok == n.tok
    ensures var w := win[list[0].sel := Some(k)]; done + [list[0]] + OpenOf(w, list[1..]) == LiveOf(w, arrived)
  {
    var n, rest := list[0], list[1..];
    var w, o := win[n.sel := Some(k)], OpenOf(win, rest);
    OpenOfMembers(win, rest);
    assert LiveOf(w, arrived) == LiveOf(w, (done + [n]) + o) by {
      LiveOfTaken(win, arrived, n.sel, k);
      assert done + ([n] + o) == (done + [n]) + o;
    }
    assert LiveOf(w, done + [n]) == done + [n] by { LiveOfAllLive(w, done + [n]); }
    assert LiveOf(w, o) == OpenOf(w, rest) by { LiveOfOpen(win, o, n.sel, k); OpenOfTaken(win, rest, n.sel, k); }
    LiveOfAppend(w, done + [n], o);
  }
}
