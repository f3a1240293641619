/**
 * The brand list editor (src/components/BrandManager.tsx): adding a brand from
 * the form fields, removing a brand by id, and splitting the list into the
 * operator's own brands and the competitors. The brand id, which the source
 * draws from `crypto.randomUUID()`, is a parameter.
 */
module BrandManager {
  import opened Wrappers
  import opened Text
  import opened Types

  // ---------------------------------------------------------------- partition

  /** `brands.filter((b) => !b.isCompetitor)`. */
  function Targets(brands: seq<Brand>): (r: seq<Brand>)
    ensures forall b :: b in r ==> b in brands && !b.isCompetitor
  {
    if brands == [] then []
    else
      var last := brands[|brands| - 1];
      Targets(brands[..|brands| - 1]) + (if !last.isCompetitor then [last] else [])
  }

  /** `brands.filter((b) => b.isCompetitor)`. */
  function Competitors(brands: seq<Brand>): (r: seq<Brand>)
    ensures forall b :: b in r ==> b in brands && b.isCompetitor
  {
    if brands == [] then []
    else
      var last := brands[|brands| - 1];
      Competitors(brands[..|brands| - 1]) + (if last.isCompetitor then [last] else [])
  }

  /** Each group keeps list order: the groups of a concatenation are the concatenated groups. */
  lemma {:induction false} PartitionKeepsOrder(a: seq<Brand>, b: seq<Brand>)
    ensures Targets(a + b) == Targets(a) + Targets(b)
    ensures Competitors(a + b) == Competitors(a) + Competitors(b)
    decreases |b|
  {
    if b == [] {
      assert a + b == a;
    } else {
      assert (a + b)[..|a + b| - 1] == a + b[..|b| - 1];
      PartitionKeepsOrder(a, b[..|b| - 1]);
    }
  }

  /** The two groups together hold exactly the original brands. */
  lemma {:induction false} PartitionIsComplete(brands: seq<Brand>)
    ensures multiset(Targets(brands)) + multiset(Competitors(brands)) == multiset(brands)
    ensures |Targets(brands)| + |Competitors(brands)| == |brands|
  {
    if brands != [] {
      var p := brands[..|brands| - 1];
      var x := brands[|brands| - 1];
      PartitionIsComplete(p);
      assert brands == p + [x];
      if x.isCompetitor {
        assert Targets(brands) == Targets(p);
        assert Competitors(brands) == Competitors(p) + [x];
      } else {
        assert Targets(brands) == Targets(p) + [x];
        assert Competitors(brands) == Competitors(p);
      }
    }
  }

  // ---------------------------------------------------------------- remove

  /** `brands.filter((b) => b.id !== id)`. */
  function RemoveBrand(brands: seq<Brand>, id: string): (r: seq<Brand>)
    ensures forall b :: b in r <==> b in brands && b.id != id
  {
    if brands == [] then []
    else
      var last := brands[|brands| - 1];
      assert brands == brands[..|brands| - 1] + [last];
      RemoveBrand(brands[..|brands| - 1], id) + (if last.id != id then [last] else [])
  }

  /** Removing an id no brand carries changes nothing. */
  lemma {:induction false} RemoveUnknownId(brands: seq<Brand>, id: string)
    requires forall b :: b in brands ==> b.id != id
    ensures RemoveBrand(brands, id) == brands
  {
    if brands != [] {
      RemoveUnknownId(brands[..|brands| - 1], id);
      assert brands == brands[..|brands| - 1] + [brands[|brands| - 1]];
    }
  }

  /** Removal keeps the surviving brands in their order. */
  lemma {:induction false} RemoveKeepsOrder(a: seq<Brand>, b: seq<Brand>, id: string)
    ensures RemoveBrand(a + b, id) == RemoveBrand(a, id) + RemoveBrand(b, id)
    decreases |b|
  {
    if b == [] {
      assert a + b == a;
    } else {
      assert (a + b)[..|a + b| - 1] == a + b[..|b| - 1];
      RemoveKeepsOrder(a, b[..|b| - 1], id);
    }
  }

  // ---------------------------------------------------------------- add

  /** `newDomain.trim() || undefined`. */
  function DomainFrom(domain: string): (d: Option<string>)
    ensures d.None? <==> AllWhitespace(domain)
    ensures d.Some? ==> d.value == Trim(domain) && d.value != ""
  {
    if Trim(domain) == "" then None else Some(Trim(domain))
  }

  /**
   * The list `addBrand` passes to `onBrandsChange`, or `None` when it returns
   * early because the name is empty or only whitespace. No uniqueness check
   * is made.
   */
  function Added(brands: seq<Brand>, id: string, name: string, domain: string, isCompetitor: bool): (r: Option<seq<Brand>>)
    ensures r.None? <==> AllWhitespace(name)
    ensures r.Some? ==> |r.value| == |brands| + 1 && r.value[..|brands|] == brands
    ensures r.Some? ==> r.value[|brands|] == Brand(id, Trim(name), DomainFrom(domain), isCompetitor)
  {
    if Trim(name) == "" then None
    else Some(brands + [Brand(id, Trim(name), DomainFrom(domain), isCompetitor)])
  }

  /**
   * A successful add appends one brand whose name is non-empty and has no
   * surrounding whitespace, whether or not a brand of that name exists.
   */
  lemma AddedBrandIsTrimmed(brands: seq<Brand>, id: string, name: string, domain: string, isCompetitor: bool)
    requires !AllWhitespace(name)
    ensures Added(brands, id, name, domain, isCompetitor).Some?
    ensures var b := Added(brands, id, name, domain, isCompetitor).value[|brands|];
      b.name != "" && Trim(b.name) == b.name && (b.domain.Some? ==> Trim(b.domain.value) == b.domain.value)
  {
    TrimIdempotent(name);
    TrimIdempotent(domain);
  }

  /** The form state of the brand editor. */
  class BrandForm {
    var newBrand: string
    var newDomain: string
    var isCompetitor: bool

    constructor ()
      ensures newBrand == "" && newDomain == "" && !isCompetitor
    {
      newBrand, newDomain, isCompetitor := "", "", false;
    }

    /**
     * `addBrand`: with a blank name nothing changes and no list is emitted;
     * otherwise the brand is appended to `brands` and the form is reset.
     */
    method AddBrand(brands: seq<Brand>, id: string) returns (emitted: Option<seq<Brand>>)
      modifies this
      ensures emitted == Added(brands, id, old(newBrand), old(newDomain), old(isCompetitor))
      ensures emitted.None? ==>
        newBrand == old(newBrand) && newDomain == old(newDomain) && isCompetitor == old(isCompetitor)
      ensures emitted.Some? ==> newBrand == "" && newDomain == "" && !isCompetitor
    {
      var name := Trim(newBrand);
      if name == "" {
        return None;
      }
      var domain := Trim(newDomain);
      var brand := Brand(id, name, if domain == "" then None else Some(domain), isCompetitor);
      emitted := Some(brands + [brand]);
      newBrand := "";
      newDomain := "";
      isCompetitor := false;
    }
  }
}
