/**
 * The Nornir inventory as the handlers see it: an ordered list of hosts,
 * each known by its inventory name and carrying a `hostname` attribute
 * (the management address). `nr.filter(hostname=x)` and
 * `nr.filter(F(name=x))` both keep the hosts whose attribute equals x.
 */
module Inventory {
  datatype Host = Host(name: string, hostname: string)

  /** The host attributes the handlers filter on. */
  datatype Attribute = Name | Hostname

  function AttributeOf(h: Host, a: Attribute): string {
    match a
    case Name => h.name
    case Hostname => h.hostname
  }

  /** The hosts whose attribute `a` equals `value`, in inventory order. */
  function Filter(inventory: seq<Host>, a: Attribute, value: string): (r: seq<Host>)
    ensures |r| <= |inventory|
    ensures forall i :: 0 <= i < |r| ==> AttributeOf(r[i], a) == value
    ensures forall h :: h in r <==> h in inventory && AttributeOf(h, a) == value
  {
    if inventory == [] then []
    else
      var rest := Filter(inventory[1..], a, value);
      if AttributeOf(inventory[0], a) == value then [inventory[0]] + rest else rest
  }

  /** The filter finds nothing exactly when no host carries the value. */
  lemma {:induction false} FilterEmpty(inventory: seq<Host>, a: Attribute, value: string)
    ensures Filter(inventory, a, value) == [] <==>
            forall i :: 0 <= i < |inventory| ==> AttributeOf(inventory[i], a) != value
  {
    if Filter(inventory, a, value) == [] {
      forall i | 0 <= i < |inventory|
        ensures AttributeOf(inventory[i], a) != value
      {
        assert inventory[i] in inventory;
      }
    } else {
      var h := Filter(inventory, a, value)[0];
      assert h in inventory;
    }
  }

  /** A single host is kept, once, exactly when it carries the value. */
  lemma FilterOne(h: Host, a: Attribute, value: string)
    ensures Filter([h], a, value) == if AttributeOf(h, a) == value then [h] else []
  {
    assert [h][1..] == [];
  }

  /**
   * Filtering works host by host: the hosts kept from two lists in a row are
   * those kept from the first followed by those kept from the second, so
   * the filter keeps inventory order and never repeats or drops a host.
   */
  lemma {:induction false} FilterAppend(x: seq<Host>, y: seq<Host>, a: Attribute, value: string)
    ensures Filter(x + y, a, value) == Filter(x, a, value) + Filter(y, a, value)
  {
    if x == [] {
      assert x + y == y;
    } else {
      assert (x + y)[0] == x[0];
      assert (x + y)[1..] == x[1..] + y;
      FilterAppend(x[1..], y, a, value);
    }
  }
}
