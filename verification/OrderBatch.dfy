/**
 The batch over all polled orders (lib/reconcile_batch.mjs:1-17; dizzy_poll_deliver.mjs:442-460): one reconciler per
 directory, created when its first order appears. A pass that throws is caught and the next order follows; only the
 end of the process ends the batch.
 */
module OrderBatch {
  import opened ArtifactStore
  import opened Fulfillment
  import opened Reconciler
  import opened OrderReconciler
  import Fleet

  lemma NamelessEnding(cap: nat, w: World, pass: Pass, stateFate: Fate)
    ensures NormalizeOrder(pass.raw).orderId == "" ==> PassEnding(cap, w, pass, stateFate) == Completed
  {
  }

  /** How each order of a batch ends. */
  ghost function Endings(cap: nat, fleet: Fleet.Fleet, passes: seq<Pass>, stateFates: seq<Fate>): seq<Ending>
    requires |stateFates| == |passes|
  {
    if passes == [] then [] else
      var n := |passes| - 1;
      var before := Fleet.FleetFrom(cap, fleet, passes[..n]);
      Endings(cap, fleet, passes[..n], stateFates[..n])
      + [PassEnding(cap, Fleet.At(before, Fleet.DirOf(passes[n])), passes[n], stateFates[n])]
  }

  lemma NoOrders(cap: nat, fleet: Fleet.Fleet, passes: seq<Pass>, stateFates: seq<Fate>)
    requires |stateFates| == |passes|
    ensures Fleet.FleetFrom(cap, fleet, passes[..0]) == fleet && Endings(cap, fleet, passes[..0], stateFates[..0]) == []
  {
  }

  lemma OneMoreOrder(cap: nat, fleet: Fleet.Fleet, passes: seq<Pass>, stateFates: seq<Fate>, i: nat)
    requires |stateFates| == |passes| && i < |passes|
    ensures var before := Fleet.FleetFrom(cap, fleet, passes[..i]);
            && Fleet.FleetFrom(cap, fleet, passes[..i + 1]) == Fleet.FleetStep(cap, before, passes[i])
            && Endings(cap, fleet, passes[..i + 1], stateFates[..i + 1])
               == Endings(cap, fleet, passes[..i], stateFates[..i])
                  + [PassEnding(cap, Fleet.At(before, Fleet.DirOf(passes[i])), passes[i], stateFates[i])]
  {
    hide Fleet.FleetStep, PassEnding, Fleet.At;
    assert passes[..i + 1][..i] == passes[..i] && stateFates[..i + 1][..i] == stateFates[..i];
  }

  /** One order's step, with the directory opened first. */
  lemma OneOrder(cap: nat, fleet: Fleet.Fleet, pass: Pass)
    ensures var id := NormalizeOrder(pass.raw).orderId;
            var dir := SanitizeOrderId(id);
            var ready := fleet[dir := Fleet.At(fleet, dir)];
            && Fleet.DirOf(pass) == dir
            && (id == "" ==> Fleet.FleetStep(cap, fleet, pass) == fleet)
            && (id != "" ==> Fleet.FleetStep(cap, fleet, pass) == ready[dir := Step(cap, ready[dir], pass)])
  {
    hide Step, NormalizeOrder, SanitizeOrderId;
  }

  lemma OpenedFleet(fleet: Fleet.Fleet, dir: string)
    ensures dir in fleet ==> fleet[dir := Fleet.At(fleet, dir)] == fleet
    ensures dir !in fleet ==> Fleet.At(fleet, dir) == EMPTY
  {
  }

  method NewReconciler(cap: nat) returns (r: OrderReconciler)
    ensures fresh(r) && fresh(r.store) && r.Valid() && r.cap == cap && r.State() == EMPTY
  {
    var store := new Directory();
    r := new OrderReconciler(store, cap);
  }

  class OrderBatch {
    const cap: nat
    var reconcilers: map<string, OrderReconciler>
    /** The reconcilers and their stores. */
    ghost var owned: set<object>

    constructor (cap: nat)
      ensures Valid() && this.cap == cap && State() == map[] && owned == {}
    {
      this.cap, reconcilers, owned := cap, map[], {};
    }

    /** Different directories have different reconcilers and stores. */
    ghost predicate Apart()
      reads this
    {
      && (forall d :: d in reconcilers ==>
            reconcilers[d].cap == cap && reconcilers[d] in owned && reconcilers[d].store in owned)
      && (forall d, e :: d in reconcilers && e in reconcilers && d != e ==>
            reconcilers[d] != reconcilers[e] && reconcilers[d].store != reconcilers[e].store)
    }

    ghost predicate Valid()
      reads this, owned
    {
      Apart() && this !in owned && forall d :: d in reconcilers ==> reconcilers[d].Valid()
    }

    ghost function State(): Fleet.Fleet
      requires Valid()
      reads this, owned
    {
      map d | d in reconcilers :: reconcilers[d].State()
    }

    /** Takes in the reconciler of a new, empty directory. */
    method Register(dir: string, reconciler: OrderReconciler)
      requires Valid() && dir !in reconcilers
      requires reconciler.Valid() && reconciler.cap == cap && reconciler.State() == EMPTY
      requires reconciler !in owned && reconciler.store !in owned && this !in {reconciler as object, reconciler.store}
      modifies this`reconcilers, this`owned
      ensures Valid() && owned == old(owned) + {reconciler, reconciler.store}
      ensures State() == old(State())[dir := EMPTY]
    {
      hide LogOnFile;
      ghost var others := reconcilers;
      reconcilers, owned := reconcilers[dir := reconciler], owned + {reconciler, reconciler.store};
      assert forall d :: d in others ==> reconcilers[d] == others[d] && others[d].store in old(owned);
      assert Apart();
    }

    /** One pass in one directory: the state of every other directory stays as it is. */
    method ReconcileIn(dir: string, pass: Pass, stateFate: Fate) returns (ending: Ending)
      requires Valid() && dir in reconcilers
      modifies owned
      ensures Valid() && State() == old(State())[dir := Step(cap, old(State())[dir], pass)]
      ensures ending == PassEnding(cap, old(State())[dir], pass, stateFate)
    {
      hide Step, PassEnding, LogOnFile;
      var reconciler := reconcilers[dir];
      ending := reconciler.ReconcileOrder(pass, stateFate);
      forall d | d in reconcilers && d != dir
        ensures reconcilers[d].Valid() && reconcilers[d].State() == old(reconcilers[d].State())
      {
        assert reconcilers[d] != reconciler && reconcilers[d].store != reconciler.store;
      }
    }

    /** One order. */
    method ReconcileOrder(pass: Pass, stateFate: Fate) returns (ending: Ending)
      requires Valid()
      modifies this, owned
      ensures Valid() && fresh(owned - old(owned))
      ensures State() == Fleet.FleetStep(cap, old(State()), pass)
      ensures ending == PassEnding(cap, Fleet.At(old(State()), Fleet.DirOf(pass)), pass, stateFate)
    {
      hide Step, PassEnding, NormalizeOrder, SanitizeOrderId, LogOnFile, Fleet.FleetStep, Fleet.At, Apart;
      var id := NormalizeOrder(pass.raw).orderId;
      ghost var before := State();
      NamelessEnding(cap, Fleet.At(before, Fleet.DirOf(pass)), pass, stateFate);
      OneOrder(cap, before, pass);
      if id == "" {
        return Completed;
      }
      var dir := SanitizeOrderId(id);
      OpenedFleet(before, dir);
      if dir !in reconcilers {
        var reconciler := NewReconciler(cap);
        Register(dir, reconciler);
      }
      ending := ReconcileIn(dir, pass, stateFate);
    }

    /** The whole batch: every order is reconciled, whichever others throw, until the process dies. */
    method ReconcileOrderBatch(passes: seq<Pass>, stateFates: seq<Fate>) returns (results: seq<Ending>)
      requires Valid() && |stateFates| == |passes|
      modifies this, owned
      ensures Valid() && fresh(owned - old(owned))
      ensures |results| <= |passes| && (|results| < |passes| ==> results != [] && results[|results| - 1] == Died)
      ensures State() == Fleet.FleetFrom(cap, old(State()), passes[..|results|])
      ensures results == Endings(cap, old(State()), passes[..|results|], stateFates[..|results|])
    {
      hide Fleet.FleetFrom, Fleet.FleetStep, Fleet.At, Fleet.DirOf, Endings, PassEnding, LogOnFile, Apart;
      results := [];
      ghost var start := State();
      NoOrders(cap, start, passes, stateFates);
      for i := 0 to |passes|
        invariant Valid() && fresh(owned - old(owned))
        invariant |results| == i && State() == Fleet.FleetFrom(cap, start, passes[..i])
        invariant results == Endings(cap, start, passes[..i], stateFates[..i])
      {
        OneMoreOrder(cap, start, passes, stateFates, i);
        var ending := ReconcileOrder(passes[i], stateFates[i]);
        results := results + [ending];
        if ending == Died {
          return;
        }
      }
    }
  }
}
