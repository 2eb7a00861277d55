/** The waiter queue: priority order, arrival order within a priority, and what settling does to it. */
module PoolQueue {
  import opened PoolModel

  /** `a` goes before `b`: higher priority, or the same priority and an earlier ticket. */
  predicate Before(a: Waiter, b: Waiter) {
    && a.ticket != b.ticket
    && Priority(a.request) >= Priority(b.request)
    && (Priority(a.request) == Priority(b.request) ==> a.ticket < b.ticket)
  }

  ghost predicate Ordered(q: seq<Waiter>) {
    forall i, j :: 0 <= i < j < |q| ==> Before(q[i], q[j])
  }

  /** `w` is put in at `k`: an interactive waiter before the background ones, behind all others. */
  ghost predicate InsertedAt(q: seq<Waiter>, w: Waiter, k: nat, r: seq<Waiter>) {
    && k <= |q| && r == q[..k] + [w] + q[k..]
    && (forall i :: 0 <= i < k ==> q[i].request.interactive || !w.request.interactive)
    && (k < |q| ==> w.request.interactive && !q[k].request.interactive)
  }

  // ---- Insertion ---------------------------------------------------------------------------------

  /** Insertion happens after every waiter of the same or a higher priority and before all others. */
  lemma {:induction false} InsertAt(q: seq<Waiter>, w: Waiter, k: nat)
    requires k <= |q|
    requires forall i :: 0 <= i < k ==> Priority(q[i].request) >= Priority(w.request)
    requires k < |q| ==> Priority(q[k].request) < Priority(w.request)
    ensures Insert(q, w) == q[..k] + [w] + q[k..]
  {
    hide Priority;
    if k == 0 {
      assert [w] + q == q[..0] + [w] + q[0..];
    } else {
      FirstApart(q, w, k);
      InsertAt(q[1..], w, k - 1);
    }
  }

  lemma FirstApart(q: seq<Waiter>, w: Waiter, k: nat)
    requires 0 < k <= |q|
    ensures q[..k] + [w] + q[k..] == [q[0]] + (q[1..][..k - 1] + [w] + q[1..][k - 1..])
  {
  }

  lemma {:induction false} InsertPlace(q: seq<Waiter>, w: Waiter) returns (k: nat)
    ensures k <= |q| && Insert(q, w) == q[..k] + [w] + q[k..]
    ensures forall i :: 0 <= i < k ==> Priority(q[i].request) >= Priority(w.request)
    ensures k < |q| ==> Priority(q[k].request) < Priority(w.request)
  {
    k := 0;
    while k < |q| && Priority(q[k].request) >= Priority(w.request)
      invariant k <= |q| && forall i :: 0 <= i < k ==> Priority(q[i].request) >= Priority(w.request)
    {
      k := k + 1;
    }
    InsertAt(q, w, k);
  }

  lemma InsertKeepsOrdered(q: seq<Waiter>, w: Waiter)
    requires Ordered(q) && forall i :: 0 <= i < |q| ==> q[i].ticket < w.ticket
    ensures Ordered(Insert(q, w))
  {
    hide Insert, Priority;
    var k := InsertPlace(q, w);
    var r := q[..k] + [w] + q[k..];
    forall i, j | 0 <= i < j < |r| ensures Before(r[i], r[j]) {
      if j == k {
      } else if i == k {
        assert r[j] == q[j - 1];
        if k < j - 1 {
          assert Before(q[k], q[j - 1]);
        }
      } else {
        var i', j' := if i < k then i else i - 1, if j < k then j else j - 1;
        assert Before(q[i'], q[j']);
      }
    }
  }

  lemma InsertMembers(q: seq<Waiter>, w: Waiter)
    ensures forall x :: x in Insert(q, w) <==> x in q || x == w
  {
    hide Insert;
    var k := InsertPlace(q, w);
    assert q == q[..k] + q[k..];
  }

  // ---- Removal -----------------------------------------------------------------------------------

  lemma {:induction false} RemovePlace(q: seq<Waiter>, k: nat)
    requires k < |q| && forall i :: 0 <= i < k ==> q[i].ticket != q[k].ticket
    ensures Remove(q, q[k].ticket) == q[..k] + q[k + 1..]
  {
    if k > 0 {
      RemovePlace(q[1..], k - 1);
      assert q[1..][k..] == q[k + 1..] && [q[0]] + q[1..][..k - 1] == q[..k];
    }
  }

  lemma OrderedWithout(q: seq<Waiter>, k: nat)
    requires Ordered(q) && k < |q|
    ensures Ordered(q[..k] + q[k + 1..])
  {
    hide Before;
    var r := q[..k] + q[k + 1..];
    forall i, j | 0 <= i < j < |r| ensures Before(r[i], r[j]) {
      var i', j' := if i < k then i else i + 1, if j < k then j else j + 1;
      assert r[i] == q[i'] && r[j] == q[j'];
    }
  }

  lemma RemoveKeepsOrdered(q: seq<Waiter>, k: nat)
    requires Ordered(q) && k < |q|
    ensures Remove(q, q[k].ticket) == q[..k] + q[k + 1..]
    ensures Ordered(Remove(q, q[k].ticket))
  {
    hide Remove;
    OrderedWithout(q, k);
    assert forall i :: 0 <= i < k ==> Before(q[i], q[k]);
    hide Ordered;
    RemovePlace(q, k);
  }

  // ---- A wake pass -------------------------------------------------------------------------------

  lemma {:induction false} KeptMembers(q: seq<Waiter>, fates: seq<Fate>)
    requires |q| == |fates|
    ensures forall x :: x in KeptOf(q, fates) ==> exists i :: 0 <= i < |q| && q[i] == x && fates[i].Kept?
  {
    if q != [] {
      KeptMembers(q[1..], fates[1..]);
      forall x | x in KeptOf(q, fates) ensures exists i :: 0 <= i < |q| && q[i] == x && fates[i].Kept? {
        if x in KeptOf(q[1..], fates[1..]) {
          var i :| 0 <= i < |q[1..]| && q[1..][i] == x && fates[1..][i].Kept?;
          assert q[i + 1] == x && fates[i + 1].Kept?;
        } else {
          assert q[0] == x && fates[0].Kept?;
        }
      }
    }
  }

  lemma {:induction false} KeptContains(q: seq<Waiter>, fates: seq<Fate>, i: nat)
    requires |q| == |fates| && i < |q| && fates[i].Kept?
    ensures q[i] in KeptOf(q, fates)
  {
    if i > 0 {
      KeptContains(q[1..], fates[1..], i - 1);
    }
  }

  /** A wake pass removes waiters and never reorders those it keeps. */
  lemma {:induction false} KeptIsOrdered(q: seq<Waiter>, fates: seq<Fate>)
    requires |q| == |fates| && Ordered(q)
    ensures Ordered(KeptOf(q, fates))
  {
    if q != [] {
      KeptIsOrdered(q[1..], fates[1..]);
      KeptMembers(q[1..], fates[1..]);
      var rest := KeptOf(q[1..], fates[1..]);
      forall j | 0 <= j < |rest| ensures Before(q[0], rest[j]) {
        assert rest[j] in rest;
        var i :| 0 <= i < |q[1..]| && q[1..][i] == rest[j] && fates[1..][i].Kept?;
        assert Before(q[0], q[i + 1]);
      }
    }
  }

  /** What a fate turns into for the waiter's request. */
  predicate Settled(outcomes: map<Ticket, Outcome>, was: map<Ticket, Outcome>, t: Ticket, fate: Fate) {
    match fate
    case Served(id) => t in outcomes && outcomes[t] == Assigned(id)
    case Failed => t in outcomes && outcomes[t] == Raised
    case _ => Unchanged(outcomes, was, t)
  }

  predicate Unchanged(outcomes: map<Ticket, Outcome>, was: map<Ticket, Outcome>, t: Ticket) {
    (t in outcomes <==> t in was) && (t in was ==> outcomes[t] == was[t])
  }

  lemma {:induction false} SettleOthers(outcomes: map<Ticket, Outcome>, q: seq<Waiter>, fates: seq<Fate>, t: Ticket)
    requires |q| == |fates| && forall i :: 0 <= i < |q| ==> q[i].ticket != t
    ensures Unchanged(Settle(outcomes, q, fates), outcomes, t)
    decreases q
  {
    if q != [] {
      SettleOthers(SettleOne(outcomes, q[0].ticket, fates[0]), q[1..], fates[1..], t);
    }
  }

  function SettleOne(outcomes: map<Ticket, Outcome>, t: Ticket, fate: Fate): map<Ticket, Outcome> {
    match fate
    case Served(id) => outcomes[t := Assigned(id)]
    case Failed => outcomes[t := Raised]
    case _ => outcomes
  }

  lemma {:induction false} SettleEach(outcomes: map<Ticket, Outcome>, q: seq<Waiter>, fates: seq<Fate>, k: nat)
    requires |q| == |fates| && k < |q|
    requires forall i, j :: 0 <= i < j < |q| ==> q[i].ticket != q[j].ticket
    ensures Settled(Settle(outcomes, q, fates), outcomes, q[k].ticket, fates[k])
    decreases q
  {
    var now := SettleOne(outcomes, q[0].ticket, fates[0]);
    if k == 0 {
      SettleOthers(now, q[1..], fates[1..], q[0].ticket);
    } else {
      SettleEach(now, q[1..], fates[1..], k - 1);
      assert Unchanged(now, outcomes, q[k].ticket);
    }
  }
}
