/**
 * Per-kind resource counters. Tiles and inventories hold them by value, so
 * the counters are a value type (`Stock`) and the class wraps one of them.
 */
module ResourceContainer {
  import opened Resource

  /** One quantity per kind, indexed by CastResource. */
  type Stock = s: seq<nat> | |s| == ResourceQuantity witness [0, 0, 0, 0, 0, 0, 0]

  function Empty(): (s: Stock)
    ensures forall r :: Quantity(s, r) == 0
  {
    [0, 0, 0, 0, 0, 0, 0]
  }

  function Quantity(s: Stock, r: Resource): nat
  {
    s[CastResource(r)]
  }

  /** q more of kind r, every other kind unchanged. */
  function AddTo(s: Stock, r: Resource, q: nat): (t: Stock)
    ensures Quantity(t, r) == Quantity(s, r) + q
    ensures forall k :: k != r ==> Quantity(t, k) == Quantity(s, k)
  {
    s[CastResource(r) := s[CastResource(r)] + q]
  }

  /** q fewer of kind r, every other kind unchanged. */
  function RemoveFrom(s: Stock, r: Resource, q: nat): (t: Stock)
    requires q <= Quantity(s, r)
    ensures Quantity(t, r) == Quantity(s, r) - q
    ensures forall k :: k != r ==> Quantity(t, k) == Quantity(s, k)
  {
    s[CastResource(r) := s[CastResource(r)] - q]
  }

  /** Two stocks with the same quantity of every kind are the same stock. */
  lemma Extensionality(s: Stock, t: Stock)
    requires forall r :: Quantity(s, r) == Quantity(t, r)
    ensures s == t
  {
    forall i | 0 <= i < ResourceQuantity ensures s[i] == t[i] {
      assert Quantity(s, FromIndex(i)) == Quantity(t, FromIndex(i));
    }
  }

  /** Removing what was added restores the stock, and so does adding back what was removed. */
  lemma AddRemoveInverse(s: Stock, r: Resource, q: nat)
    ensures RemoveFrom(AddTo(s, r, q), r, q) == s
    ensures q <= Quantity(s, r) ==> AddTo(RemoveFrom(s, r, q), r, q) == s
  {
    Extensionality(RemoveFrom(AddTo(s, r, q), r, q), s);
    if q <= Quantity(s, r) {
      Extensionality(AddTo(RemoveFrom(s, r, q), r, q), s);
    }
  }

  /** Sum of the quantities s[i..]. */
  function SumFrom(s: Stock, i: nat): nat
    requires i <= ResourceQuantity
    decreases ResourceQuantity - i
  {
    if i == ResourceQuantity then 0 else s[i] + SumFrom(s, i + 1)
  }

  /** Total number of units of every kind. */
  function Total(s: Stock): nat
  {
    SumFrom(s, 0)
  }

  lemma {:induction false} SumFromAdd(s: Stock, r: Resource, q: nat, i: nat)
    requires i <= ResourceQuantity
    ensures SumFrom(AddTo(s, r, q), i) == SumFrom(s, i) + (if i <= CastResource(r) then q else 0)
    decreases ResourceQuantity - i
  {
    if i < ResourceQuantity {
      SumFromAdd(s, r, q, i + 1);
    }
  }

  /** Adding q units of one kind adds q to the total. */
  lemma TotalAdd(s: Stock, r: Resource, q: nat)
    ensures Total(AddTo(s, r, q)) == Total(s) + q
  {
    SumFromAdd(s, r, q, 0);
  }

  /** Removing q units of one kind takes q from the total. */
  lemma TotalRemove(s: Stock, r: Resource, q: nat)
    requires q <= Quantity(s, r)
    ensures Total(RemoveFrom(s, r, q)) + q == Total(s)
  {
    var t := RemoveFrom(s, r, q);
    AddRemoveInverse(s, r, q);
    TotalAdd(t, r, q);
  }

  /** One kind's quantity never exceeds the total. */
  lemma QuantityWithinTotal(s: Stock, r: Resource)
    ensures Quantity(s, r) <= Total(s)
  {
    TotalRemove(s, r, Quantity(s, r));
  }

  /** ResourceContainer: the counters of one tile or inventory, updated in place. */
  class ResourceContainer {
    var resources: Stock

    /** A new container is cleared. */
    constructor ()
      ensures resources == Empty()
    {
      resources := Empty();
    }

    /** clear: every quantity back to zero. */
    method Clear()
      modifies this
      ensures resources == Empty()
    {
      resources := Empty();
    }

    /** addResource(resource, quantity); the source's default quantity is 1. */
    method AddResource(r: Resource, q: nat)
      modifies this
      ensures resources == AddTo(old(resources), r, q)
    {
      resources := AddTo(resources, r, q);
    }

    /** addSingleResource: one more unit of r. */
    method AddSingleResource(r: Resource)
      modifies this
      ensures resources == AddTo(old(resources), r, 1)
    {
      AddResource(r, 1);
    }

    /** removeResource(resource, quantity); the callers never remove more than is held. */
    method RemoveResource(r: Resource, q: nat)
      requires q <= Quantity(resources, r)
      modifies this
      ensures resources == RemoveFrom(old(resources), r, q)
    {
      resources := RemoveFrom(resources, r, q);
    }

    /** getResourceQuantity: the count of one kind, the one AddResource raises and RemoveResource lowers. */
    method GetResourceQuantity(r: Resource) returns (q: nat)
      ensures q == Quantity(resources, r)
      ensures q <= Total(resources)
    {
      q := resources[CastResource(r)];
      QuantityWithinTotal(resources, r);
    }
  }
}
