/**
 * Two orders of the live mocks of a server: that of their last updates, and that of their creation.
 * Each is kept step by step and can be read off the whole history.
 */
module UpdateOrders {
  import opened RoutePrecedence

  /** What happens to the mocks of a server. */
  datatype Event = Installs(path: string) | Removes(path: string) | Clears

  function Without(order: seq<string>, p: string): seq<string> {
    if order == [] then []
    else if order[0] == p then Without(order[1..], p)
    else [order[0]] + Without(order[1..], p)
  }

  /** An update moves a mock to the end. */
  function Requeued(order: seq<string>, e: Event): seq<string> {
    match e
    case Installs(p) => Without(order, p) + [p]
    case Removes(p) => Without(order, p)
    case Clears => []
  }

  /** An update leaves a mock where it is; a new one comes last. */
  function Enlisted(order: seq<string>, e: Event): seq<string> {
    match e
    case Installs(p) => if p in order then order else order + [p]
    case Removes(p) => Without(order, p)
    case Clears => []
  }

  /** The live mocks in the order of their last updates. */
  function UpdateOrder(start: seq<string>, events: seq<Event>): seq<string>
    decreases |events|
  {
    if events == [] then start else UpdateOrder(Requeued(start, events[0]), events[1..])
  }

  /** The live mocks in the order of their creation. */
  function CreationOrder(start: seq<string>, events: seq<Event>): seq<string>
    decreases |events|
  {
    if events == [] then start else CreationOrder(Enlisted(start, events[0]), events[1..])
  }

  lemma {:induction false} OrdersConcat(recent: seq<string>, created: seq<string>, xs: seq<Event>, ys: seq<Event>)
    ensures UpdateOrder(recent, xs + ys) == UpdateOrder(UpdateOrder(recent, xs), ys)
    ensures CreationOrder(created, xs + ys) == CreationOrder(CreationOrder(created, xs), ys)
    decreases |xs|
  {
    if xs == [] {
      assert xs + ys == ys;
    } else {
      assert (xs + ys)[1..] == xs[1..] + ys;
      OrdersConcat(Requeued(recent, xs[0]), Enlisted(created, xs[0]), xs[1..], ys);
    }
  }

  lemma OrdersOfOne(recent: seq<string>, created: seq<string>, e: Event)
    ensures UpdateOrder(recent, [e]) == Requeued(recent, e) && CreationOrder(created, [e]) == Enlisted(created, e)
  {
    assert [e][1..] == [];
  }

  lemma {:induction false} WithoutShape(order: seq<string>, p: string)
    ensures forall x :: x in Without(order, p) <==> x in order && x != p
  {
    if order != [] {
      assert order == [order[0]] + order[1..];
      WithoutShape(order[1..], p);
    }
  }

  lemma WithoutCons(r: string, order: seq<string>, p: string)
    ensures Without([r] + order, p) == if r == p then Without(order, p) else [r] + Without(order, p)
  {
    assert ([r] + order)[1..] == order;
  }

  // ---------------------------------------------------------------- the orders, read off the history

  predicate Ends(e: Event, p: string) {
    e.Clears? || e == Removes(p)
  }

  /** Event `i` is the last update of a live mock. */
  predicate LastUpdate(events: seq<Event>, p: string, i: nat) {
    i < |events| && events[i] == Installs(p) && forall j :: i < j < |events| ==> !Ends(events[j], p) && events[j] != Installs(p)
  }

  /** The mock is live after the events. */
  predicate Live(events: seq<Event>, p: string) {
    exists i: nat :: i < |events| && LastUpdate(events, p, i)
  }

  /** Event `i` created a live mock. */
  predicate Creation(events: seq<Event>, p: string, i: nat) {
    && i < |events| && events[i] == Installs(p) && !Live(events[..i], p)
    && forall j :: i < j < |events| ==> !Ends(events[j], p)
  }

  ghost predicate UpdatedBefore(events: seq<Event>, p: string, q: string) {
    exists i: nat, j: nat :: i < j && LastUpdate(events, p, i) && LastUpdate(events, q, j)
  }

  ghost predicate CreatedBefore(events: seq<Event>, p: string, q: string) {
    exists i: nat, j: nat :: i < j && Creation(events, p, i) && Creation(events, q, j)
  }

  /** An update after the last event. */
  lemma LastUpdateNext(events: seq<Event>, e: Event, p: string, i: nat)
    ensures LastUpdate(events + [e], p, i) <==>
            (i == |events| && e == Installs(p)) || (LastUpdate(events, p, i) && !Ends(e, p) && e != Installs(p))
  {
    var all := events + [e];
    assert all[|events|] == e && forall j :: 0 <= j < |events| ==> all[j] == events[j];
  }

  lemma LiveNext(events: seq<Event>, e: Event, p: string)
    ensures Live(events + [e], p) <==> e == Installs(p) || (Live(events, p) && !Ends(e, p))
  {
    forall i: nat
      ensures LastUpdate(events + [e], p, i) <==>
              (i == |events| && e == Installs(p)) || (LastUpdate(events, p, i) && !Ends(e, p) && e != Installs(p))
    {
      LastUpdateNext(events, e, p, i);
    }
    if e == Installs(p) {
      assert LastUpdate(events + [e], p, |events|);
    } else if Live(events, p) && !Ends(e, p) {
      var i :| LastUpdate(events, p, i);
      assert LastUpdate(events + [e], p, i);
    }
  }

  lemma CreationNext(events: seq<Event>, e: Event, p: string, i: nat)
    ensures Creation(events + [e], p, i) <==>
            (i == |events| && e == Installs(p) && !Live(events, p)) || (Creation(events, p, i) && !Ends(e, p))
  {
    var all := events + [e];
    assert all[|events|] == e && forall j :: 0 <= j < |events| ==> all[j] == events[j];
    assert all[..|events|] == events && (i < |events| ==> all[..i] == events[..i]);
  }

  lemma {:induction false} LiveIsCreated(events: seq<Event>, p: string)
    ensures Live(events, p) <==> exists i: nat :: i < |events| && Creation(events, p, i)
  {
    if events != [] {
      var front, e := events[..|events| - 1], events[|events| - 1];
      assert events == front + [e];
      LiveIsCreated(front, p);
      LiveNext(front, e, p);
      forall i: nat
        ensures Creation(events, p, i) <==>
                (i == |front| && e == Installs(p) && !Live(front, p)) || (Creation(front, p, i) && !Ends(e, p))
      {
        CreationNext(front, e, p, i);
      }
      if Live(events, p) {
        if Live(front, p) {
          var i: nat :| i < |front| && Creation(front, p, i);
          assert Creation(events, p, i);
        } else {
          assert Creation(events, p, |front|);
        }
      }
    }
  }

  lemma UpdatedBeforeNext(events: seq<Event>, e: Event, p: string, q: string)
    requires p != q
    ensures UpdatedBefore(events + [e], p, q) <==>
            if e == Installs(q) then Live(events, p)
            else e != Installs(p) && !Ends(e, p) && !Ends(e, q) && UpdatedBefore(events, p, q)
  {
    forall x, i: nat
      ensures LastUpdate(events + [e], x, i) <==>
              (i == |events| && e == Installs(x)) || (LastUpdate(events, x, i) && !Ends(e, x) && e != Installs(x))
    {
      LastUpdateNext(events, e, x, i);
    }
    if e == Installs(q) && Live(events, p) {
      var i: nat :| i < |events| && LastUpdate(events, p, i);
      assert LastUpdate(events + [e], p, i) && LastUpdate(events + [e], q, |events|);
    } else if e != Installs(p) && e != Installs(q) && !Ends(e, p) && !Ends(e, q) && UpdatedBefore(events, p, q) {
      var i: nat, j: nat :| i < j && LastUpdate(events, p, i) && LastUpdate(events, q, j);
      assert LastUpdate(events + [e], p, i) && LastUpdate(events + [e], q, j);
    }
  }

  lemma CreatedBeforeNext(events: seq<Event>, e: Event, p: string, q: string)
    requires p != q
    ensures CreatedBefore(events + [e], p, q) <==>
            && !Ends(e, p) && !Ends(e, q)
            && (CreatedBefore(events, p, q) || (e == Installs(q) && !Live(events, q) && Live(events, p)))
  {
    forall x, i: nat
      ensures Creation(events + [e], x, i) <==>
              (i == |events| && e == Installs(x) && !Live(events, x)) || (Creation(events, x, i) && !Ends(e, x))
    {
      CreationNext(events, e, x, i);
    }
    LiveIsCreated(events, p);
    if !Ends(e, p) && !Ends(e, q) {
      if CreatedBefore(events, p, q) {
        var i: nat, j: nat :| i < j && Creation(events, p, i) && Creation(events, q, j);
        assert Creation(events + [e], p, i) && Creation(events + [e], q, j);
      } else if e == Installs(q) && !Live(events, q) && Live(events, p) {
        var i: nat :| i < |events| && Creation(events, p, i);
        assert Creation(events + [e], p, i) && Creation(events + [e], q, |events|);
      }
    }
  }

  lemma BeforeAppend(order: seq<string>, r: string, p: string, q: string)
    ensures Before(order + [r], p, q) <==> Before(order, p, q) || (q == r && p in order)
  {
    var all := order + [r];
    if Before(order, p, q) {
      var i, j :| 0 <= i < j < |order| && order[i] == p && order[j] == q;
      assert all[i] == p && all[j] == q;
    }
    if q == r && p in order {
      var i :| 0 <= i < |order| && order[i] == p;
      assert all[i] == p && all[|order|] == r;
    }
  }

  lemma BeforeCons(r: string, order: seq<string>, p: string, q: string)
    ensures Before([r] + order, p, q) <==> Before(order, p, q) || (p == r && q in order)
  {
    var all := [r] + order;
    if Before(order, p, q) {
      var i, j :| 0 <= i < j < |order| && order[i] == p && order[j] == q;
      assert all[i + 1] == p && all[j + 1] == q;
    }
    if p == r && q in order {
      var j :| 0 <= j < |order| && order[j] == q;
      assert all[0] == p && all[j + 1] == q;
    }
  }

  lemma {:induction false} BeforeWithout(order: seq<string>, r: string, p: string, q: string)
    ensures Before(Without(order, r), p, q) <==> p != r && q != r && Before(order, p, q)
  {
    if order != [] {
      assert order == [order[0]] + order[1..];
      BeforeWithout(order[1..], r, p, q);
      BeforeCons(order[0], order[1..], p, q);
      WithoutShape(order[1..], r);
      if order[0] != r {
        BeforeCons(order[0], Without(order[1..], r), p, q);
      }
    }
  }

  lemma LastEvent(events: seq<Event>, front: seq<Event>, e: Event)
    requires events == front + [e]
    ensures UpdateOrder([], events) == Requeued(UpdateOrder([], front), e)
    ensures CreationOrder([], events) == Enlisted(CreationOrder([], front), e)
  {
    OrdersConcat([], [], front, [e]);
    OrdersOfOne(UpdateOrder([], front), CreationOrder([], front), e);
  }

  /** Both orders hold the live mocks. */
  lemma {:induction false} OrdersAreLive(events: seq<Event>, p: string)
    ensures p in UpdateOrder([], events) <==> Live(events, p)
    ensures p in CreationOrder([], events) <==> Live(events, p)
  {
    if events != [] {
      var front, e := events[..|events| - 1], events[|events| - 1];
      assert events == front + [e];
      OrdersAreLive(front, p);
      LastEvent(events, front, e);
      LiveNext(front, e, p);
      if !e.Clears? {
        WithoutShape(UpdateOrder([], front), e.path);
        WithoutShape(CreationOrder([], front), e.path);
      }
    }
  }

  /** One order is that of last updates. */
  lemma {:induction false} UpdateOrderIff(events: seq<Event>, p: string, q: string)
    requires p != q
    ensures Before(UpdateOrder([], events), p, q) <==> UpdatedBefore(events, p, q)
  {
    if events != [] {
      var front, e := events[..|events| - 1], events[|events| - 1];
      assert events == front + [e];
      UpdateOrderIff(front, p, q);
      LastEvent(events, front, e);
      UpdatedBeforeNext(front, e, p, q);
      OrdersAreLive(front, p);
      if !e.Clears? {
        var order := UpdateOrder([], front);
        BeforeWithout(order, e.path, p, q);
        WithoutShape(order, e.path);
        BeforeAppend(Without(order, e.path), e.path, p, q);
      }
    }
  }

  /** The other is that of creation. */
  lemma {:induction false} CreationOrderIff(events: seq<Event>, p: string, q: string)
    requires p != q
    ensures Before(CreationOrder([], events), p, q) <==> CreatedBefore(events, p, q)
  {
    if events != [] {
      var front, e := events[..|events| - 1], events[|events| - 1];
      assert events == front + [e];
      CreationOrderIff(front, p, q);
      LastEvent(events, front, e);
      CreatedBeforeNext(front, e, p, q);
      OrdersAreLive(front, p);
      OrdersAreLive(front, q);
      if !e.Clears? {
        var order := CreationOrder([], front);
        BeforeWithout(order, e.path, p, q);
        BeforeAppend(order, e.path, p, q);
      }
    }
  }

  lemma NotBeforeItself(events: seq<Event>, p: string)
    ensures !UpdatedBefore(events, p, p)
  {
  }

  lemma ThreeOrders(p: string, q: string)
    requires p != q
    ensures UpdateOrder([], [Installs(p), Installs(q), Installs(p)]) == [q, p]
    ensures CreationOrder([], [Installs(p), Installs(q), Installs(p)]) == [p, q]
  {
    var one, two := [Installs(p)], [Installs(p), Installs(q)];
    WithoutCons(p, [], q);
    WithoutCons(q, [], p);
    WithoutCons(p, [q], p);
    assert [p] + [] == [p] && [q] + [] == [q] && [p] + [q] == [p, q];
    OrdersOfOne([], [], Installs(p));
    assert Requeued([], Installs(p)) == [p] && Enlisted([], Installs(p)) == [p];
    LastEvent(two, one, Installs(q));
    assert Requeued([p], Installs(q)) == [p, q] && Enlisted([p], Installs(q)) == [p, q];
    LastEvent(two + [Installs(p)], two, Installs(p));
    assert Requeued([p, q], Installs(p)) == [q, p] && Enlisted([p, q], Installs(p)) == [p, q];
    assert two + [Installs(p)] == [Installs(p), Installs(q), Installs(p)];
  }
}
