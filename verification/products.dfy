/** The products sectors make, and what they take. */
module Products {
  import opened Basics
  import opened Game

  datatype Input = Input(item: int, amount: int)

  datatype Resource = NoResource | Min | Gold | Fert | OilRes | Uran

  const TECH := 0
  const RESEARCH := 1
  const EDUCATION := 2
  const HAPPINESS := 3

  /** makes is an item, or level a nation's level; needs is the level that makes production efficient. */
  datatype Product = Product(
    inputs: seq<Input>, bwork: int, makes: Option<int>, level: Option<int>, cost: int,
    resource: Resource, nrdep: int, needs: Option<int>, nlmin: int, nllag: int)

  const PRODUCTS := 15

  function ProductOf(i: int): Option<Product> {
    match i
    case 0 => Some(Product([], 1, Some(5), None, 0, Min, 0, None, 0, 0))
    case 1 => Some(Product([], 1, Some(6), None, 0, Gold, 20, None, 0, 0))
    case 2 => Some(Product([], 1, Some(8), None, 0, Fert, 0, Some(TECH), -10, 10))
    case 3 => Some(Product([], 1, Some(9), None, 0, OilRes, 10, Some(TECH), -10, 10))
    case 4 => Some(Product([], 1, Some(13), None, 2, Uran, 35, Some(TECH), 40, 10))
    case 5 => Some(Product([Input(10, 2), Input(11, 1)], 3, Some(2), None, 3, NoResource, 0, Some(TECH), 20, 10))
    case 6 => Some(Product([Input(9, 1), Input(10, 5), Input(11, 10)], 16, Some(3), None, 30, NoResource, 0,
                           Some(TECH), 20, 10))
    case 7 => Some(Product([Input(9, 1)], 1, Some(4), None, 1, NoResource, 0, Some(TECH), 20, 10))
    case 8 => Some(Product([Input(6, 5)], 5, Some(7), None, 10, NoResource, 0, None, 0, 0))
    case 9 => Some(Product([Input(5, 1)], 1, Some(10), None, 0, NoResource, 0, Some(TECH), -10, 10))
    case 10 => Some(Product([Input(5, 2)], 2, Some(11), None, 0, NoResource, 0, Some(TECH), -10, 10))
    case 11 => Some(Product([Input(6, 1), Input(9, 5), Input(10, 10)], 16, None, Some(TECH), 300, NoResource, 0,
                            Some(EDUCATION), 5, 10))
    case 12 => Some(Product([Input(6, 1), Input(9, 5), Input(10, 10)], 16, None, Some(RESEARCH), 90, NoResource, 0,
                            Some(EDUCATION), 5, 10))
    case 13 => Some(Product([Input(10, 1)], 1, None, Some(EDUCATION), 9, NoResource, 0, None, 0, 0))
    case 14 => Some(Product([Input(10, 1)], 1, None, Some(HAPPINESS), 9, NoResource, 0, None, 0, 0))
    case _ => None
  }

  /** What a sector type makes; -1 for nothing. */
  function PrdOf(t: int): int {
    match t
    case 1 => 1
    case 6 => 4
    case 7 => 14
    case 8 => 6
    case 9 => 5
    case 10 => 0
    case 11 => 1
    case 15 => 2
    case 16 => 3
    case 17 => 9
    case 18 => 10
    case 20 => 11
    case 21 => 12
    case 23 => 13
    case 29 => 8
    case 30 => 7
    case _ => -1
  }

  function PeffOf(t: int): int {
    if PrdOf(t) == -1 then 0 else if t == 15 then 900 else 100
  }

  /** Inputs are distinct, in positive amounts, never people, and never what is made. */
  ghost predicate Sound(p: Product) {
    (forall k :: 0 <= k < |p.inputs| ==> IsMaterial(p.inputs[k].item) && p.inputs[k].amount >= 1)
    && (forall j, k :: 0 <= j < k < |p.inputs| ==> p.inputs[j].item != p.inputs[k].item)
    && (forall k :: 0 <= k < |p.inputs| ==> p.makes != Some(p.inputs[k].item))
    && (p.makes.Some? ==> IsMaterial(p.makes.value)) && (p.level.Some? ==> 0 <= p.level.value < 4)
    && p.bwork >= 1 && p.cost >= 0 && p.nrdep >= 0 && p.nllag >= 0
  }

  predicate IsMaterial(item: int) {
    2 <= item < ITEMS && item != UW
  }

  lemma {:induction false} MinedAreSound(i: int)
    requires 0 <= i < 5
    ensures ProductOf(i).Some? && Sound(ProductOf(i).value)
  {}

  lemma {:induction false} ManufacturedAreSound(i: int)
    requires 5 <= i < 11
    ensures ProductOf(i).Some? && Sound(ProductOf(i).value)
  {}

  lemma {:induction false} LevelsAreSound(i: int)
    requires 11 <= i < 15
    ensures ProductOf(i).Some? && Sound(ProductOf(i).value)
  {}

  lemma {:induction false} ProductsAreSound(i: int)
    requires ProductOf(i).Some?
    ensures Sound(ProductOf(i).value) && 0 <= i < PRODUCTS
  {
    assert 0 <= i < PRODUCTS;
    hide ProductOf, Sound;
    if i < 5 {
      MinedAreSound(i);
    } else if i < 11 {
      ManufacturedAreSound(i);
    } else {
      LevelsAreSound(i);
    }
  }

  lemma {:induction false} EveryTypeIsListed(t: int)
    ensures PrdOf(t) == -1 || ProductOf(PrdOf(t)).Some?
    ensures PeffOf(t) >= 0
  {}

  function ResourceVal(s: Sector, r: Resource): int {
    match r
    case NoResource => 100
    case Min => s.min
    case Gold => s.gmin
    case Fert => s.fertil
    case OilRes => s.oil
    case Uran => s.uran
  }

  function WithResource(s: Sector, r: Resource, v: int): Sector {
    match r
    case NoResource => s
    case Min => s.(min := v)
    case Gold => s.(gmin := v)
    case Fert => s.(fertil := v)
    case OilRes => s.(oil := v)
    case Uran => s.(uran := v)
  }

  /** How well a product can be made at a nation's level: nothing below the minimum, then growing with
      the level toward the sector type's own efficiency. */
  function ProdEff(p: Product, level: real, peff: int): (r: real)
    requires peff >= 0
    ensures r >= 0.0
  {
    if p.needs == None then peff as real / 100.0
    else
      var delta := level - p.nlmin as real;
      if delta < 0.0 then 0.0
      else
        var lag := if p.nllag as real + delta > 1.0 then p.nllag as real + delta else 1.0;
        assert delta / lag >= 0.0;
        Scaled(delta / lag, peff)
  }

  function Scaled(part: real, peff: int): (r: real)
    requires part >= 0.0 && peff >= 0
    ensures r >= 0.0
  {
    part * peff as real / 100.0
  }
}
