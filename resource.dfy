/** The seven resource kinds, their wire names and their relative abundance. */
module Resource {
  import opened Wrappers

  datatype Resource = Food | Linemate | Deraumere | Sibur | Mendiane | Phiras | Thystame

  /** RESOURCE_QUANTITY: the number of kinds. */
  const ResourceQuantity: nat := 7

  /** castResource: the enumerator's underlying value, FOOD = 0 ... THYSTAME = 6. */
  function CastResource(r: Resource): (i: nat)
    ensures i < ResourceQuantity
  {
    match r
    case Food => 0
    case Linemate => 1
    case Deraumere => 2
    case Sibur => 3
    case Mendiane => 4
    case Phiras => 5
    case Thystame => 6
  }

  /** The kind with underlying value i. */
  function FromIndex(i: int): (r: Resource)
    requires 0 <= i < ResourceQuantity
    ensures CastResource(r) == i
  {
    [Food, Linemate, Deraumere, Sibur, Mendiane, Phiras, Thystame][i]
  }

  lemma CastResourceInjective(a: Resource, b: Resource)
    requires CastResource(a) == CastResource(b)
    ensures a == b
  {
  }

  /** The `names` table, indexed by kind. */
  const Names: seq<string> := ["food", "linemate", "deraumere", "sibur", "mendiane", "phiras", "thystame"]

  /** getName: the lower-case name of a kind. */
  function GetName(r: Resource): (s: string)
    ensures s == Names[CastResource(r)]
  {
    match r
    case Food => "food"
    case Linemate => "linemate"
    case Deraumere => "deraumere"
    case Sibur => "sibur"
    case Mendiane => "mendiane"
    case Phiras => "phiras"
    case Thystame => "thystame"
  }

  /** Position of name in the names table from index i on, if present. */
  function IndexOfName(name: string, i: nat): (r: Option<nat>)
    requires i <= |Names|
    ensures r.Some? ==> i <= r.value < |Names| && Names[r.value] == name
    ensures r.None? <==> forall j :: i <= j < |Names| ==> Names[j] != name
    decreases |Names| - i
  {
    if i == |Names| then None
    else if Names[i] == name then Some(i)
    else IndexOfName(name, i + 1)
  }

  /** getResource: the kind named `name`; None for a string outside the names table. */
  function GetResource(name: string): (r: Option<Resource>)
    ensures r.Some? <==> name in Names
    ensures r.Some? ==> GetName(r.value) == name
  {
    match IndexOfName(name, 0)
    case None => None
    case Some(i) => Some(FromIndex(i))
  }

  /** getName and getResource are inverse on the seven kinds. */
  lemma NameRoundTrip(r: Resource)
    ensures GetResource(GetName(r)) == Some(r)
  {
    var g := GetResource(GetName(r));
    assert GetName(r) in Names;
    assert GetName(g.value) == GetName(r);
    CastResourceInjective(g.value, r);
  }

  /** Walking the names table in order visits the kinds in order. */
  lemma NameAtIndex(k: nat)
    requires k < ResourceQuantity
    ensures GetResource(Names[k]) == Some(FromIndex(k))
  {
    NameRoundTrip(FromIndex(k));
  }

  /** `coeff`, in thousandths: the spawn density of each kind. */
  function CoeffPerMille(r: Resource): (c: nat)
  {
    [500, 300, 150, 100, 100, 80, 50][CastResource(r)]
  }

  /** The densities never increase from FOOD to THYSTAME: rarer kinds come later. */
  lemma CoeffNonIncreasing(a: Resource, b: Resource)
    requires CastResource(a) <= CastResource(b)
    ensures CoeffPerMille(b) <= CoeffPerMille(a)
  {
  }
}
