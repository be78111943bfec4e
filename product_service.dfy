/** The product catalogue of the back end in its mock-data mode: per-category
    look-ups, merging, de-duplication by id, keyword search and the two
    recommendation rankings, all over the catalogue loaded at start-up. */
module ProductService {
  import opened Values
  import opened Text

  /** A catalogue product. Only the fields the queries read are kept; the
      others travel with the product unchanged. */
  datatype Product = Product(id: string, name: string, brand: string, description: string)

  /** One key of the `skinTypes` or `diseases` object with its product list,
      in the object's key order. */
  datatype Category = Category(key: string, products: seq<Product>)

  datatype Catalogue = Catalogue(skinTypes: seq<Category>, diseases: seq<Category>)

  const EmptyCatalogue := Catalogue([], [])

  /** `loadProducts`: the parsed data file, or empty categories when the file
      cannot be read or parsed. */
  function LoadProducts(parsed: Option<Catalogue>): (c: Catalogue)
    ensures parsed.Some? ==> c == parsed.value
    ensures parsed.None? ==> c.skinTypes == [] && c.diseases == []
  {
    parsed.GetOr(EmptyCatalogue)
  }

  // ---------------------------------------------------------------------
  // Ids
  // ---------------------------------------------------------------------

  predicate HasId(s: seq<Product>, id: string)
  {
    exists k :: 0 <= k < |s| && s[k].id == id
  }

  predicate DistinctIds(s: seq<Product>)
  {
    forall i, j :: 0 <= i < j < |s| ==> s[i].id != s[j].id
  }

  /** `s.findIndex(p => p.id === id)`: an index with that id, or -1 when
      there is none; `FindIndexFirst` shows it is the first such index. */
  function FindIndex(s: seq<Product>, id: string): (k: int)
    ensures -1 <= k < |s|
    ensures k >= 0 ==> s[k].id == id
    ensures k == -1 <==> !HasId(s, id)
  {
    if |s| == 0 then -1
    else if s[0].id == id then 0
    else
      var k := FindIndex(s[1..], id);
      assert HasId(s, id) ==> HasId(s[1..], id) by {
        if HasId(s, id) {
          var j :| 0 <= j < |s| && s[j].id == id;
          assert s[1..][j - 1].id == id;
        }
      }
      if k == -1 then -1 else k + 1
  }

  // ---------------------------------------------------------------------
  // Keeping the first occurrence of each id
  // ---------------------------------------------------------------------

  /** The items among the first `n` of `s` that pass
      `index === self.findIndex(p => p.id === product.id)`, in order. */
  function KeepFirstUpTo(s: seq<Product>, n: nat): seq<Product>
    requires n <= |s|
  {
    if n == 0 then [] else KeepFirstUpTo(s, n - 1) + Kept(s, n - 1)
  }

  /** `[s[i]]` when `s[i]` is the first item with its id, nothing otherwise. */
  function Kept(s: seq<Product>, i: nat): seq<Product>
    requires i < |s|
  {
    if FindIndex(s, s[i].id) == i then [s[i]] else []
  }

  lemma KeptSnoc(s: seq<Product>, p: Product, i: nat)
    requires i < |s|
    ensures Kept(s + [p], i) == Kept(s, i)
  {
    var t := s + [p];
    assert t[i] == s[i];
    FindIndexSnoc(s, p, s[i].id, i);
  }

  /** `s.filter((p, index, self) => index === self.findIndex(q => q.id === p.id))`. */
  function UniqueById(s: seq<Product>): seq<Product>
  {
    KeepFirstUpTo(s, |s|)
  }

  /** Appending a product does not change the choices made before it. */
  lemma KeepFirstUpToSnoc(s: seq<Product>, p: Product, n: nat)
    requires n <= |s|
    ensures KeepFirstUpTo(s + [p], n) == KeepFirstUpTo(s, n)
  {
    forall i | 0 <= i < n ensures Kept(s + [p], i) == Kept(s, i) {
      KeptSnoc(s, p, i);
    }
    KeepFirstUpToAgree(s + [p], s, n);
  }

  /** Two lists making the same choices on their first `n` items keep the
      same items from them. */
  lemma {:induction false} KeepFirstUpToAgree(s: seq<Product>, t: seq<Product>, n: nat)
    requires n <= |s| && n <= |t|
    requires forall i :: 0 <= i < n ==> Kept(s, i) == Kept(t, i)
    ensures KeepFirstUpTo(s, n) == KeepFirstUpTo(t, n)
  {
    if n > 0 {
      KeepFirstUpToAgree(s, t, n - 1);
      assert KeepFirstUpTo(s, n) == KeepFirstUpTo(s, n - 1) + Kept(s, n - 1);
      assert KeepFirstUpTo(t, n) == KeepFirstUpTo(t, n - 1) + Kept(t, n - 1);
    } else {
      assert KeepFirstUpTo(s, n) == [] == KeepFirstUpTo(t, n);
    }
  }

  /** No item before the one `FindIndex` reports has the id. */
  lemma {:induction false} FindIndexFirst(s: seq<Product>, id: string)
    ensures forall j :: 0 <= j < FindIndex(s, id) ==> s[j].id != id
    decreases |s|
  {
    if |s| > 0 && s[0].id != id {
      var k := FindIndex(s[1..], id);
      FindIndexFirst(s[1..], id);
      forall j | 0 <= j < FindIndex(s, id) ensures s[j].id != id {
        if j > 0 { assert s[j] == s[1..][j - 1]; }
      }
    }
  }

  /** The appended product is kept exactly when its id is new. */
  lemma FindIndexLast(s: seq<Product>, p: Product)
    ensures FindIndex(s + [p], p.id) == |s| <==> !HasId(s, p.id)
  {
    var t := s + [p];
    assert t[|s|] == p;
    if HasId(s, p.id) {
      var j :| 0 <= j < |s| && s[j].id == p.id;
      assert t[j].id == p.id;
      FindIndexFirst(t, p.id);
      assert FindIndex(t, p.id) <= j;
    } else {
      assert forall j :: 0 <= j < |s| ==> t[j].id != p.id;
      assert FindIndex(t, p.id) == |s|;
    }
  }

  lemma FindIndexSnoc(s: seq<Product>, p: Product, id: string, i: nat)
    requires i < |s| && s[i].id == id
    ensures FindIndex(s + [p], id) == FindIndex(s, id)
  {
    var t := s + [p];
    var k := FindIndex(s, id);
    assert k >= 0 && t[k].id == id;
    FindIndexFirst(s, id);
    FindIndexFirst(t, id);
    var kt := FindIndex(t, id);
    assert kt <= k;
    assert t[kt] == s[kt];
  }

  /** Appending a product keeps it exactly when its id is new. */
  lemma UniqueByIdSnoc(s: seq<Product>, p: Product)
    ensures UniqueById(s + [p]) == UniqueById(s) + (if HasId(s, p.id) then [] else [p])
  {
    var t := s + [p];
    KeepFirstUpToSnoc(s, p, |s|);
    FindIndexLast(s, p);
    assert t[|t| - 1] == p;
    assert Kept(t, |s|) == if FindIndex(t, p.id) == |s| then [p] else [];
  }

  lemma HasIdSnoc(s: seq<Product>, p: Product, id: string)
    ensures HasId(s + [p], id) <==> HasId(s, id) || p.id == id
  {
    var t := s + [p];
    if HasId(t, id) && !(p.id == id) {
      var k :| 0 <= k < |t| && t[k].id == id;
      assert k < |s| && s[k].id == id;
    }
    if HasId(s, id) {
      var k :| 0 <= k < |s| && s[k].id == id;
      assert t[k].id == id;
    }
    if p.id == id { assert t[|s|].id == id; }
  }

  /** What the de-duplication keeps: distinct ids, the same ids as its input,
      only products of its input, and the input's pairwise orderings. */
  lemma {:induction false} UniqueByIdProps(s: seq<Product>)
    ensures DistinctIds(UniqueById(s))
    ensures forall id :: HasId(UniqueById(s), id) <==> HasId(s, id)
    ensures forall k :: 0 <= k < |UniqueById(s)| ==> UniqueById(s)[k] in s
    ensures |UniqueById(s)| <= |s|
    decreases |s|
  {
    if |s| == 0 {
      assert UniqueById(s) == [];
    } else {
      var s0, p := s[..|s| - 1], s[|s| - 1];
      assert s == s0 + [p];
      UniqueByIdProps(s0);
      UniqueByIdSnoc(s0, p);
      SurvivorsSnoc(s0, UniqueById(s0), p);
    }
  }

  /** The induction step of `UniqueByIdProps`, on the survivors `u0` of `s0`. */
  lemma SurvivorsSnoc(s0: seq<Product>, u0: seq<Product>, p: Product)
    requires DistinctIds(u0)
    requires forall id :: HasId(u0, id) <==> HasId(s0, id)
    requires forall k :: 0 <= k < |u0| ==> u0[k] in s0
    requires |u0| <= |s0|
    ensures var u := u0 + (if HasId(s0, p.id) then [] else [p]);
      && DistinctIds(u)
      && (forall id :: HasId(u, id) <==> HasId(s0 + [p], id))
      && (forall k :: 0 <= k < |u| ==> u[k] in s0 + [p])
      && |u| <= |s0 + [p]|
  {
    var s := s0 + [p];
    var u := u0 + (if HasId(s0, p.id) then [] else [p]);
    forall id ensures HasId(u, id) <==> HasId(s, id) {
      HasIdSnoc(s0, p, id);
      HasIdSnoc(u0, p, id);
      if HasId(s0, p.id) {
        assert u == u0;
        assert p.id == id ==> HasId(s0, id);
      }
    }
    forall k | 0 <= k < |u| ensures u[k] in s {
      if k < |u0| { assert u[k] == u0[k]; }
    }
    if !HasId(s0, p.id) {
      forall i, j | 0 <= i < j < |u| ensures u[i].id != u[j].id {
        if j == |u0| {
          assert u[i] == u0[i];
          assert HasId(u0, u0[i].id);
        } else {
          assert u[i] == u0[i] && u[j] == u0[j];
        }
      }
    }
  }

  /** A relation that holds between every earlier and later item of `s` also
      holds on the de-duplicated list (it is a subsequence of `s`). */
  ghost predicate Ordered(s: seq<Product>, R: (Product, Product) -> bool)
  {
    forall i, j :: 0 <= i < j < |s| ==> R(s[i], s[j])
  }

  lemma {:induction false} UniqueByIdKeepsOrder(s: seq<Product>, R: (Product, Product) -> bool)
    requires Ordered(s, R)
    ensures Ordered(UniqueById(s), R)
    decreases |s|
  {
    if |s| > 0 {
      var s0, p := s[..|s| - 1], s[|s| - 1];
      assert s == s0 + [p];
      assert Ordered(s0, R);
      UniqueByIdKeepsOrder(s0, R);
      UniqueByIdSnoc(s0, p);
      UniqueByIdProps(s0);
      OrderedSnoc(s0, UniqueById(s0), p, R);
    }
  }

  /** The induction step of `UniqueByIdKeepsOrder`. */
  lemma OrderedSnoc(s0: seq<Product>, u0: seq<Product>, p: Product, R: (Product, Product) -> bool)
    requires Ordered(u0, R) && Ordered(s0 + [p], R)
    requires forall k :: 0 <= k < |u0| ==> u0[k] in s0
    ensures Ordered(u0 + (if HasId(s0, p.id) then [] else [p]), R)
  {
    var s := s0 + [p];
    var u := u0 + (if HasId(s0, p.id) then [] else [p]);
    forall i, j | 0 <= i < j < |u| ensures R(u[i], u[j]) {
      assert u[i] == u0[i];
      if j == |u0| {
        var x := u0[i];
        var k :| 0 <= k < |s0| && s0[k] == x;
        assert s[k] == x && s[|s| - 1] == p == u[j];
      } else {
        assert u[j] == u0[j];
      }
    }
  }

  /** The items of `t` whose id does not occur in `d`. */
  function WithoutIdsOf(t: seq<Product>, d: seq<Product>): (r: seq<Product>)
    ensures forall k :: 0 <= k < |r| ==> r[k] in t && !HasId(d, r[k].id)
  {
    if |t| == 0 then []
    else WithoutIdsOf(t[..|t| - 1], d) + (if HasId(d, t[|t| - 1].id) then [] else [t[|t| - 1]])
  }

  /** De-duplicating a concatenation: the first list's survivors come first,
      then the second list's survivors whose id the first list lacks. */
  lemma {:induction false} UniqueByIdAppend(d: seq<Product>, t: seq<Product>)
    ensures UniqueById(d + t) == UniqueById(d) + WithoutIdsOf(UniqueById(t), d)
    decreases |t|
  {
    if |t| == 0 {
      assert d + t == d;
      assert UniqueById(t) == [];
    } else {
      var t0, p := t[..|t| - 1], t[|t| - 1];
      assert t == t0 + [p];
      assert d + t == (d + t0) + [p];
      UniqueByIdAppend(d, t0);
      UniqueByIdSnoc(d + t0, p);
      UniqueByIdSnoc(t0, p);
      HasIdAppend(d, t0, p.id);
      var ut0 := UniqueById(t0);
      if HasId(t0, p.id) {
        assert UniqueById(t) == ut0;
        assert UniqueById(d + t) == UniqueById(d + t0);
      } else {
        WithoutIdsOfSnoc(ut0, p, d);
        Glue(UniqueById(d), WithoutIdsOf(ut0, d), if HasId(d, p.id) then [] else [p]);
      }
    }
  }

  lemma Glue<T>(a: seq<T>, b: seq<T>, c: seq<T>)
    ensures (a + b) + c == a + (b + c)
  {
  }

  lemma WithoutIdsOfSnoc(u: seq<Product>, p: Product, d: seq<Product>)
    ensures WithoutIdsOf(u + [p], d) == WithoutIdsOf(u, d) + (if HasId(d, p.id) then [] else [p])
  {
    assert (u + [p])[..|u|] == u;
  }

  lemma HasIdAppend(a: seq<Product>, b: seq<Product>, id: string)
    ensures HasId(a + b, id) <==> HasId(a, id) || HasId(b, id)
  {
    var c := a + b;
    if HasId(c, id) {
      var k :| 0 <= k < |c| && c[k].id == id;
      if k < |a| { assert a[k].id == id; } else { assert b[k - |a|].id == id; }
    }
    if HasId(a, id) {
      var k :| 0 <= k < |a| && a[k].id == id;
      assert c[k].id == id;
    }
    if HasId(b, id) {
      var k :| 0 <= k < |b| && b[k].id == id;
      assert c[|a| + k].id == id;
    }
  }

  // ---------------------------------------------------------------------
  // `new Map(products.map(p => [p.id, p])).values()`
  // ---------------------------------------------------------------------

  /** `map.set(p.id, p)` on the map's value list: an existing id keeps its
      position and takes the new product; a new id goes last. */
  function MapSet(m: seq<Product>, p: Product): seq<Product>
  {
    var k := FindIndex(m, p.id);
    if k >= 0 then m[k := p] else m + [p]
  }

  function MapFromEntries(s: seq<Product>): seq<Product>
  {
    if |s| == 0 then [] else MapSet(MapFromEntries(s[..|s| - 1]), s[|s| - 1])
  }

  /** The product kept for an id is the LAST one with that id. */
  ghost predicate IsLastWithId(s: seq<Product>, x: Product)
  {
    exists j :: 0 <= j < |s| && s[j] == x && forall j' :: j < j' < |s| ==> s[j'].id != x.id
  }

  /** The values of a map built from entries keyed by id: one product per id
      of the input, no other ids, and each one the last of its id. */
  lemma {:induction false} MapFromEntriesProps(s: seq<Product>)
    ensures DistinctIds(MapFromEntries(s))
    ensures forall id :: HasId(MapFromEntries(s), id) <==> HasId(s, id)
    ensures forall k :: 0 <= k < |MapFromEntries(s)| ==> IsLastWithId(s, MapFromEntries(s)[k])
    decreases |s|
  {
    if |s| > 0 {
      var s0, p := s[..|s| - 1], s[|s| - 1];
      assert s == s0 + [p];
      MapFromEntriesProps(s0);
      var m0 := MapFromEntries(s0);
      assert MapFromEntries(s) == MapSet(m0, p);
      MapSetDistinct(m0, p);
      MapSetIds(s0, m0, p);
      MapSetLast(s0, m0, p);
    }
  }

  lemma MapSetDistinct(m0: seq<Product>, p: Product)
    requires DistinctIds(m0)
    ensures DistinctIds(MapSet(m0, p))
  {
    var k := FindIndex(m0, p.id);
    if k < 0 {
      var m := m0 + [p];
      forall i, j | 0 <= i < j < |m| ensures m[i].id != m[j].id {
        if j == |m0| { assert m[i] == m0[i]; }
      }
    }
  }

  lemma MapSetIds(s0: seq<Product>, m0: seq<Product>, p: Product)
    requires forall id :: HasId(m0, id) <==> HasId(s0, id)
    ensures forall id :: HasId(MapSet(m0, p), id) <==> HasId(s0 + [p], id)
  {
    var k := FindIndex(m0, p.id);
    var m := MapSet(m0, p);
    forall id ensures HasId(m, id) <==> HasId(s0 + [p], id) {
      HasIdSnoc(s0, p, id);
      if k >= 0 {
        if HasId(m, id) {
          var i :| 0 <= i < |m| && m[i].id == id;
          assert m0[i].id == id;
        }
        if HasId(m0, id) {
          var i :| 0 <= i < |m0| && m0[i].id == id;
          assert m[i].id == id;
        }
      } else {
        HasIdSnoc(m0, p, id);
      }
    }
  }

  lemma MapSetLast(s0: seq<Product>, m0: seq<Product>, p: Product)
    requires DistinctIds(m0)
    requires forall k :: 0 <= k < |m0| ==> IsLastWithId(s0, m0[k])
    ensures forall k :: 0 <= k < |MapSet(m0, p)| ==> IsLastWithId(s0 + [p], MapSet(m0, p)[k])
  {
    var k := FindIndex(m0, p.id);
    var m := MapSet(m0, p);
    var s := s0 + [p];
    forall i | 0 <= i < |m| ensures IsLastWithId(s, m[i]) {
      if m[i] == p && (k == i || (k < 0 && i == |m0|)) {
        assert s[|s| - 1] == p;
      } else {
        var x := m0[i];
        assert m[i] == x;
        assert x.id != p.id;
        var j :| 0 <= j < |s0| && s0[j] == x && forall j' :: j < j' < |s0| ==> s0[j'].id != x.id;
        assert s[j] == x;
      }
    }
  }

  // ---------------------------------------------------------------------
  // Queries
  // ---------------------------------------------------------------------

  /** All products of a list of categories, in key order. */
  function Flatten(cs: seq<Category>): seq<Product>
  {
    if |cs| == 0 then [] else Flatten(cs[..|cs| - 1]) + cs[|cs| - 1].products
  }

  /** Every product of the catalogue: skin-type lists first, then disease lists. */
  function Everything(cat: Catalogue): seq<Product>
  {
    Flatten(cat.skinTypes) + Flatten(cat.diseases)
  }

  /** `categories[key] || []`: the list of the first category with the key,
      or nothing when no category has it. */
  function Lookup(cs: seq<Category>, key: string): (r: seq<Product>)
    ensures (forall k :: 0 <= k < |cs| ==> cs[k].key != key) ==> r == []
    ensures forall i :: 0 <= i < |cs| && cs[i].key == key && (forall j :: 0 <= j < i ==> cs[j].key != key) ==>
      r == cs[i].products
  {
    if |cs| == 0 then [] else if cs[0].key == key then cs[0].products else Lookup(cs[1..], key)
  }

  /** `getAllProducts(limit)`: catalogue products de-duplicated by id, cut to `limit`. */
  function AllProducts(cat: Catalogue, limit: int): seq<Product>
  {
    SliceTo(MapFromEntries(Everything(cat)), limit)
  }

  /** `getAllProducts` pushes every category's products and then rebuilds the
      id map entry by entry. */
  method GetAllProducts(cat: Catalogue, limit: int) returns (r: seq<Product>)
    ensures r == AllProducts(cat, limit)
  {
    var all: seq<Product> := [];
    for i := 0 to |cat.skinTypes|
      invariant all == Flatten(cat.skinTypes[..i])
    {
      assert cat.skinTypes[..i + 1][..i] == cat.skinTypes[..i];
      all := all + cat.skinTypes[i].products;
    }
    assert cat.skinTypes[..|cat.skinTypes|] == cat.skinTypes;
    var fromTypes := all;
    for i := 0 to |cat.diseases|
      invariant all == fromTypes + Flatten(cat.diseases[..i])
    {
      assert cat.diseases[..i + 1][..i] == cat.diseases[..i];
      all := all + cat.diseases[i].products;
    }
    assert cat.diseases[..|cat.diseases|] == cat.diseases;
    var unique: seq<Product> := [];
    for j := 0 to |all|
      invariant unique == MapFromEntries(all[..j])
    {
      assert all[..j + 1][..j] == all[..j];
      unique := MapSet(unique, all[j]);
    }
    assert all[..|all|] == all;
    r := SliceTo(unique, limit);
  }

  /** `getAllProducts` returns at most `limit` products, with pairwise-distinct
      ids, and (given room) one product for every id of the catalogue. */
  lemma AllProductsProps(cat: Catalogue, limit: int)
    ensures limit >= 0 ==> |AllProducts(cat, limit)| <= limit
    ensures DistinctIds(AllProducts(cat, limit))
    ensures limit >= |Everything(cat)| ==>
      forall id :: HasId(AllProducts(cat, limit), id) <==> HasId(Everything(cat), id)
  {
    var m := MapFromEntries(Everything(cat));
    MapFromEntriesProps(Everything(cat));
    var r := AllProducts(cat, limit);
    assert forall i, j :: 0 <= i < j < |r| ==> r[i] == m[i] && r[j] == m[j];
    if limit >= |Everything(cat)| {
      MapFromEntriesLength(Everything(cat));
      assert r == m;
    }
  }

  lemma {:induction false} MapFromEntriesLength(s: seq<Product>)
    ensures |MapFromEntries(s)| <= |s|
    decreases |s|
  {
    if |s| > 0 { MapFromEntriesLength(s[..|s| - 1]); }
  }

  /** `getProductsBySkinType(skinType, limit)`. */
  function BySkinType(cat: Catalogue, skinType: string, limit: int): seq<Product>
  {
    SliceTo(Lookup(cat.skinTypes, ToLower(skinType)), limit)
  }

  /** `getProductsByDisease(disease, limit)`. */
  function ByDisease(cat: Catalogue, disease: string, limit: int): seq<Product>
  {
    SliceTo(Lookup(cat.diseases, ToLower(disease)), limit)
  }

  /** The skin-type look-up ignores case, returns the first `min(limit, size)`
      products of its category and nothing for an unknown type. */
  lemma BySkinTypeProps(cat: Catalogue, skinType: string, limit: int)
    ensures BySkinType(cat, skinType, limit) == BySkinType(cat, ToLower(skinType), limit)
    ensures var list := Lookup(cat.skinTypes, ToLower(skinType));
      && BySkinType(cat, skinType, limit) == list[..|BySkinType(cat, skinType, limit)|]
      && (limit >= 0 ==> |BySkinType(cat, skinType, limit)| == if limit < |list| then limit else |list|)
    ensures (forall k :: 0 <= k < |cat.skinTypes| ==> cat.skinTypes[k].key != ToLower(skinType)) ==>
      BySkinType(cat, skinType, limit) == []
  {
    ToLowerIdempotent(skinType);
  }

  /** The disease look-up behaves the same way on the disease categories. */
  lemma ByDiseaseProps(cat: Catalogue, disease: string, limit: int)
    ensures ByDisease(cat, disease, limit) == ByDisease(cat, ToLower(disease), limit)
    ensures var list := Lookup(cat.diseases, ToLower(disease));
      && ByDisease(cat, disease, limit) == list[..|ByDisease(cat, disease, limit)|]
      && (limit >= 0 ==> |ByDisease(cat, disease, limit)| == if limit < |list| then limit else |list|)
    ensures (forall k :: 0 <= k < |cat.diseases| ==> cat.diseases[k].key != ToLower(disease)) ==>
      ByDisease(cat, disease, limit) == []
  {
    ToLowerIdempotent(disease);
  }

  /** `getProductsByTypeAndDisease(skinType, disease, limit)`. */
  function ByTypeAndDisease(cat: Catalogue, skinType: string, disease: string, limit: int): seq<Product>
  {
    var typeProducts := Lookup(cat.skinTypes, ToLower(skinType));
    var diseaseProducts := Lookup(cat.diseases, ToLower(disease));
    SliceTo(UniqueById(diseaseProducts + typeProducts), limit)
  }

  /** Disease products come first, then the skin-type products whose id is not
      already there; each id once; at most `limit` products. */
  lemma ByTypeAndDiseaseProps(cat: Catalogue, skinType: string, disease: string, limit: int)
    ensures var t := Lookup(cat.skinTypes, ToLower(skinType));
      var d := Lookup(cat.diseases, ToLower(disease));
      var merged := UniqueById(d) + WithoutIdsOf(UniqueById(t), d);
      ByTypeAndDisease(cat, skinType, disease, limit) == SliceTo(merged, limit)
    ensures DistinctIds(ByTypeAndDisease(cat, skinType, disease, limit))
    ensures limit >= 0 ==> |ByTypeAndDisease(cat, skinType, disease, limit)| <= limit
  {
    var t := Lookup(cat.skinTypes, ToLower(skinType));
    var d := Lookup(cat.diseases, ToLower(disease));
    UniqueByIdAppend(d, t);
    UniqueByIdProps(d + t);
    var u := UniqueById(d + t);
    var r := ByTypeAndDisease(cat, skinType, disease, limit);
    assert forall i, j :: 0 <= i < j < |r| ==> r[i] == u[i] && r[j] == u[j];
  }

  /** The search predicate: the keyword occurs in the name, brand or
      description, ignoring case. */
  predicate Matches(p: Product, keyword: string)
  {
    ContainsIgnoreCase(p.name, keyword) || ContainsIgnoreCase(p.brand, keyword)
    || ContainsIgnoreCase(p.description, keyword)
  }

  function FilterMatching(s: seq<Product>, keyword: string): (r: seq<Product>)
    ensures forall k :: 0 <= k < |r| ==> r[k] in s && Matches(r[k], keyword)
    ensures forall p :: p in s && Matches(p, keyword) ==> p in r
  {
    if |s| == 0 then []
    else
      var rest := FilterMatching(s[1..], keyword);
      assert forall p :: p in s ==> p == s[0] || p in s[1..];
      if Matches(s[0], keyword) then [s[0]] + rest else rest
  }

  /** `searchProducts(keyword, limit)`. */
  function Search(cat: Catalogue, keyword: string, limit: int): seq<Product>
  {
    SliceTo(UniqueById(FilterMatching(Everything(cat), keyword)), limit)
  }

  /** Every search result matches the keyword, comes from the catalogue and has
      a distinct id; at most `limit` results; given room, every matching id. */
  lemma SearchProps(cat: Catalogue, keyword: string, limit: int)
    ensures forall k :: 0 <= k < |Search(cat, keyword, limit)| ==>
      Matches(Search(cat, keyword, limit)[k], keyword) && Search(cat, keyword, limit)[k] in Everything(cat)
    ensures DistinctIds(Search(cat, keyword, limit))
    ensures limit >= 0 ==> |Search(cat, keyword, limit)| <= limit
    ensures limit >= |Everything(cat)| ==> forall p :: p in Everything(cat) && Matches(p, keyword) ==>
      HasId(Search(cat, keyword, limit), p.id)
  {
    var f := FilterMatching(Everything(cat), keyword);
    UniqueByIdProps(f);
    var u := UniqueById(f);
    var r := Search(cat, keyword, limit);
    assert forall k :: 0 <= k < |r| ==> r[k] == u[k];
    assert forall i, j :: 0 <= i < j < |r| ==> r[i] == u[i] && r[j] == u[j];
    if limit >= |Everything(cat)| {
      FilterLength(Everything(cat), keyword);
      assert r == u;
      forall p | p in Everything(cat) && Matches(p, keyword) ensures HasId(r, p.id) {
        var k :| 0 <= k < |f| && f[k] == p;
        assert HasId(f, p.id);
      }
    }
  }

  lemma {:induction false} FilterLength(s: seq<Product>, keyword: string)
    ensures |FilterMatching(s, keyword)| <= |s|
    decreases |s|
  {
    if |s| > 0 { FilterLength(s[1..], keyword); }
  }

  /** `getTrendingProducts(limit)`: the first `limit` of `getAllProducts(2 * limit)`. */
  function Trending(cat: Catalogue, limit: int): seq<Product>
  {
    SliceTo(AllProducts(cat, 2 * limit), limit)
  }

  /** For a non-negative limit the trending list is simply the first `limit`
      catalogue products. */
  lemma TrendingIsAllProducts(cat: Catalogue, limit: int)
    requires limit >= 0
    ensures Trending(cat, limit) == AllProducts(cat, limit)
  {
    var m := MapFromEntries(Everything(cat));
    assert AllProducts(cat, 2 * limit) == m[..if 2 * limit < |m| then 2 * limit else |m|];
  }

  // ---------------------------------------------------------------------
  // Condition-based recommendations
  // ---------------------------------------------------------------------

  const SkinTypeConditions: seq<string> := ["dry", "oily", "combination", "normal", "sensitive"]
  const DiseaseConditions: seq<string> := ["acne", "eczema", "rosacea", "healthy"]

  function Normalize(condition: string): string
  {
    Trim(ToLower(condition))
  }

  predicate Recognised(condition: string)
  {
    Normalize(condition) in SkinTypeConditions || Normalize(condition) in DiseaseConditions
  }

  /** The products one condition contributes before de-duplication. */
  function CandidatesFor(cat: Catalogue, condition: string, limit: int): (r: seq<Product>)
    ensures !Recognised(condition) ==> r == []
  {
    var c := Normalize(condition);
    (if c in SkinTypeConditions then BySkinType(cat, c, limit) else [])
    + (if c in DiseaseConditions then ByDisease(cat, c, limit) else [])
  }

  /** The loop body `if (!seen.has(p.id)) { push(p); seen.add(p.id) }` over `ps`. */
  function AddUnseen(acc: seq<Product>, ps: seq<Product>): seq<Product>
  {
    if |ps| == 0 then acc
    else
      var a := AddUnseen(acc, ps[..|ps| - 1]);
      if HasId(a, ps[|ps| - 1].id) then a else a + [ps[|ps| - 1]]
  }

  /** The list the condition loop accumulates. */
  function Collect(cat: Catalogue, conditions: seq<string>, limit: int): seq<Product>
  {
    if |conditions| == 0 then []
    else AddUnseen(Collect(cat, conditions[..|conditions| - 1], limit),
                   CandidatesFor(cat, conditions[|conditions| - 1], limit))
  }

  /** `getRecommendations(conditions, limit)`. */
  function Recommendations(cat: Catalogue, conditions: seq<string>, limit: int): seq<Product>
  {
    if |conditions| == 0 then Trending(cat, limit)
    else
      var all := Collect(cat, conditions, limit);
      if |all| == 0 then Trending(cat, limit) else SliceTo(all, limit)
  }

  function IdSet(s: seq<Product>): set<string>
  {
    set k | 0 <= k < |s| :: s[k].id
  }

  lemma IdSetSnoc(s: seq<Product>, p: Product)
    ensures IdSet(s + [p]) == IdSet(s) + {p.id}
  {
    var t := s + [p];
    forall x | x in IdSet(t) ensures x in IdSet(s) + {p.id} {
      var k :| 0 <= k < |t| && t[k].id == x;
      if k < |s| { assert s[k].id == x; }
    }
    forall x | x in IdSet(s) + {p.id} ensures x in IdSet(t) {
      if x == p.id { assert t[|s|].id == x; }
      else { var k :| 0 <= k < |s| && s[k].id == x; assert t[k].id == x; }
    }
  }

  /** One `products.forEach` of the service's loop: push each product whose
      id is not in `seen`, and record its id. */
  method PushUnseen(all: seq<Product>, seen: set<string>, ps: seq<Product>)
    returns (all': seq<Product>, seen': set<string>)
    requires seen == IdSet(all)
    ensures all' == AddUnseen(all, ps) && seen' == IdSet(all')
  {
    all', seen' := all, seen;
    for j := 0 to |ps|
      invariant all' == AddUnseen(all, ps[..j])
      invariant seen' == IdSet(all')
    {
      assert ps[..j + 1][..j] == ps[..j];
      var p := ps[j];
      assert p.id in seen' <==> HasId(all', p.id);
      if p.id !in seen' {
        ghost var before := all';
        all' := all' + [p];
        seen' := seen' + {p.id};
        IdSetSnoc(before, p);
      }
    }
    assert ps[..|ps|] == ps;
  }

  /** The service's loop: one pass per condition, pushing each product whose
      id has not been seen. */
  method GetRecommendations(cat: Catalogue, conditions: seq<string>, limit: int) returns (r: seq<Product>)
    ensures r == Recommendations(cat, conditions, limit)
  {
    if |conditions| == 0 {
      return Trending(cat, limit);
    }
    var all: seq<Product> := [];
    var seen: set<string> := {};
    for i := 0 to |conditions|
      invariant all == Collect(cat, conditions[..i], limit)
      invariant seen == IdSet(all)
    {
      assert conditions[..i + 1][..i] == conditions[..i];
      var c := Normalize(conditions[i]);
      if c in SkinTypeConditions {
        all, seen := PushUnseen(all, seen, BySkinType(cat, c, limit));
      }
      if c in DiseaseConditions {
        all, seen := PushUnseen(all, seen, ByDisease(cat, c, limit));
      }
      AddUnseenCandidates(cat, conditions[..i], conditions[i], limit);
    }
    assert conditions[..|conditions|] == conditions;
    if |all| == 0 {
      r := Trending(cat, limit);
    } else {
      r := SliceTo(all, limit);
    }
  }

  lemma {:induction false} AddUnseenConcat(acc: seq<Product>, a: seq<Product>, b: seq<Product>)
    ensures AddUnseen(AddUnseen(acc, a), b) == AddUnseen(acc, a + b)
    decreases |b|
  {
    if |b| == 0 {
      assert a + b == a;
    } else {
      assert a + b == (a + b[..|b| - 1]) + [b[|b| - 1]];
      AddUnseenConcat(acc, a, b[..|b| - 1]);
    }
  }

  /** A condition's step of the loop adds its skin-type list, then its disease list. */
  lemma AddUnseenCandidates(cat: Catalogue, done: seq<string>, condition: string, limit: int)
    ensures var c := Normalize(condition);
      var acc := Collect(cat, done, limit);
      var afterTypes := if c in SkinTypeConditions then AddUnseen(acc, BySkinType(cat, c, limit)) else acc;
      Collect(cat, done + [condition], limit)
        == if c in DiseaseConditions then AddUnseen(afterTypes, ByDisease(cat, c, limit)) else afterTypes
  {
    var c := Normalize(condition);
    var acc := Collect(cat, done, limit);
    assert (done + [condition])[..|done|] == done;
    var ts := if c in SkinTypeConditions then BySkinType(cat, c, limit) else [];
    var ds := if c in DiseaseConditions then ByDisease(cat, c, limit) else [];
    AddUnseenConcat(acc, ts, ds);
    assert AddUnseen(acc, []) == acc;
    assert AddUnseen(AddUnseen(acc, ts), []) == AddUnseen(acc, ts);
  }

  /** Flattening the per-condition candidate lists in condition order. */
  function AllCandidates(cat: Catalogue, conditions: seq<string>, limit: int): seq<Product>
  {
    if |conditions| == 0 then []
    else AllCandidates(cat, conditions[..|conditions| - 1], limit)
         + CandidatesFor(cat, conditions[|conditions| - 1], limit)
  }

  lemma {:induction false} AddUnseenIsUnique(x: seq<Product>, y: seq<Product>)
    ensures AddUnseen(UniqueById(x), y) == UniqueById(x + y)
    decreases |y|
  {
    if |y| == 0 {
      assert x + y == x;
    } else {
      var y0, p := y[..|y| - 1], y[|y| - 1];
      assert y == y0 + [p];
      assert x + y == (x + y0) + [p];
      AddUnseenIsUnique(x, y0);
      UniqueByIdSnoc(x + y0, p);
      UniqueByIdProps(x + y0);
    }
  }

  /** The seen-set loop keeps the first product of each id across the
      conditions' candidate lists, in condition order. */
  lemma {:induction false} CollectIsUniqueCandidates(cat: Catalogue, conditions: seq<string>, limit: int)
    ensures Collect(cat, conditions, limit) == UniqueById(AllCandidates(cat, conditions, limit))
    decreases |conditions|
  {
    if |conditions| == 0 {
      assert UniqueById([]) == [];
    } else {
      var c0 := conditions[..|conditions| - 1];
      CollectIsUniqueCandidates(cat, c0, limit);
      AddUnseenIsUnique(AllCandidates(cat, c0, limit), CandidatesFor(cat, conditions[|conditions| - 1], limit));
    }
  }

  /** No duplicate ids, at most `limit` (for a non-negative limit), every
      product from the conditions' categories unless the trending fallback
      applies; an empty condition list gives exactly the trending list. */
  lemma RecommendationsProps(cat: Catalogue, conditions: seq<string>, limit: int)
    ensures conditions == [] ==> Recommendations(cat, conditions, limit) == Trending(cat, limit)
    ensures UniqueById(AllCandidates(cat, conditions, limit)) == [] ==>
      Recommendations(cat, conditions, limit) == Trending(cat, limit)
    ensures UniqueById(AllCandidates(cat, conditions, limit)) != [] ==>
      Recommendations(cat, conditions, limit) == SliceTo(UniqueById(AllCandidates(cat, conditions, limit)), limit)
    ensures DistinctIds(Recommendations(cat, conditions, limit))
    ensures limit >= 0 ==> |Recommendations(cat, conditions, limit)| <= limit
  {
    CollectIsUniqueCandidates(cat, conditions, limit);
    var u := UniqueById(AllCandidates(cat, conditions, limit));
    UniqueByIdProps(AllCandidates(cat, conditions, limit));
    if conditions == [] {
      assert u == [];
    }
    var r := Recommendations(cat, conditions, limit);
    if u == [] || conditions == [] {
      TrendingDistinct(cat, limit);
    } else {
      assert r == SliceTo(u, limit);
      PrefixDistinct(u, |r|);
    }
  }

  /** A prefix of a list with distinct ids has distinct ids. */
  lemma PrefixDistinct(u: seq<Product>, m: nat)
    requires m <= |u| && DistinctIds(u)
    ensures DistinctIds(u[..m])
  {
    var r := u[..m];
    assert forall k :: 0 <= k < m ==> r[k] == u[k];
  }

  lemma TrendingDistinct(cat: Catalogue, limit: int)
    ensures DistinctIds(Trending(cat, limit))
    ensures limit >= 0 ==> |Trending(cat, limit)| <= limit
  {
    AllProductsProps(cat, 2 * limit);
    var a := AllProducts(cat, 2 * limit);
    var r := Trending(cat, limit);
    assert forall i, j :: 0 <= i < j < |r| ==> r[i] == a[i] && r[j] == a[j];
  }

  function OnlyRecognised(conditions: seq<string>): (r: seq<string>)
    ensures forall k :: 0 <= k < |r| ==> Recognised(r[k])
  {
    if |conditions| == 0 then []
    else OnlyRecognised(conditions[..|conditions| - 1])
         + (if Recognised(conditions[|conditions| - 1]) then [conditions[|conditions| - 1]] else [])
  }

  lemma {:induction false} CollectIgnoresUnrecognised(cat: Catalogue, conditions: seq<string>, limit: int)
    ensures Collect(cat, conditions, limit) == Collect(cat, OnlyRecognised(conditions), limit)
    decreases |conditions|
  {
    if |conditions| > 0 {
      var c0, c := conditions[..|conditions| - 1], conditions[|conditions| - 1];
      CollectIgnoresUnrecognised(cat, c0, limit);
      var o0 := OnlyRecognised(c0);
      if Recognised(c) {
        var o := OnlyRecognised(conditions);
        assert o == o0 + [c];
        assert o[..|o| - 1] == o0 && o[|o| - 1] == c;
      } else {
        assert OnlyRecognised(conditions) == o0;
        assert CandidatesFor(cat, c, limit) == [];
        assert Collect(cat, conditions, limit) == AddUnseen(Collect(cat, c0, limit), []);
      }
    }
  }

  /** Conditions that are neither a known skin type nor a known disease make
      no difference to the result. */
  lemma RecommendationsIgnoreUnrecognised(cat: Catalogue, conditions: seq<string>, limit: int)
    ensures Recommendations(cat, conditions, limit) == Recommendations(cat, OnlyRecognised(conditions), limit)
  {
    CollectIgnoresUnrecognised(cat, conditions, limit);
  }

  // ---------------------------------------------------------------------
  // Profile-based (advanced) recommendations
  // ---------------------------------------------------------------------

  /** The profile fields the scoring reads; `None` is `undefined`/`null`. */
  datatype Profile = Profile(
    skinType: Option<string>,
    problems: Option<seq<string>>,
    sensitivity: Option<string>,
    acne: Option<string>)

  /** `s || ''` for an optional string. */
  function OrEmpty(s: Option<string>): string
  {
    s.GetOr("")
  }

  predicate IsSensitive(profile: Profile)
  {
    OrEmpty(profile.sensitivity) != "" && Contains(ToLower(OrEmpty(profile.sensitivity)), "yüksek")
  }

  predicate IsAcneProne(profile: Profile)
  {
    var a := ToLower(OrEmpty(profile.acne));
    OrEmpty(profile.acne) != "" && (Contains(a, "var") || Contains(a, "yüksek") || Contains(a, "orta"))
  }

  function SkinTypePoints(userSkinType: string, pId: string, pDesc: string): int
  {
    if Contains(pId, userSkinType) || Contains(pDesc, userSkinType) then 50
    else if Contains(pId, "normal") || Contains(pId, "all") then 10
    else if userSkinType == "combination" && (Contains(pId, "oily") || Contains(pId, "dry")) then 20
    else -50
  }

  /** 40 points for each of the user's problems named in the product. */
  function ProblemPoints(problems: seq<string>, pId: string, pName: string, pDesc: string): (r: int)
    ensures 0 <= r <= 40 * |problems|
  {
    if |problems| == 0 then 0
    else
      var p := problems[|problems| - 1];
      ProblemPoints(problems[..|problems| - 1], pId, pName, pDesc)
      + (if Contains(pDesc, p) || Contains(pName, p) || Contains(pId, p) then 40 else 0)
  }

  function LowerAll(ss: seq<string>): (r: seq<string>)
    ensures |r| == |ss|
  {
    seq(|ss|, i requires 0 <= i < |ss| => ToLower(ss[i]))
  }

  /** The score `getAdvancedRecommendations` gives one product. */
  function Score(profile: Profile, p: Product): int
  {
    var userSkinType := ToLower(OrEmpty(profile.skinType));
    var userProblems := LowerAll(profile.problems.GetOr([]));
    var pDesc, pName, pId := ToLower(p.description), ToLower(p.name), ToLower(p.id);
    var soothing := Contains(pDesc, "hassas") || Contains(pDesc, "yatıştırıcı")
      || Contains(pDesc, "sensitive") || Contains(pDesc, "doğal");
    var irritating := Contains(pDesc, "parfüm") || Contains(pDesc, "alkol");
    var sensitivePoints :=
      if IsSensitive(profile) then (if soothing then 30 else 0) - (if irritating then 40 else 0) else 0;
    var acneFriendly := Contains(pDesc, "akne") || Contains(pDesc, "gözenek")
      || Contains(pDesc, "yağsız") || Contains(pDesc, "non-comedogenic");
    var heavyOil := Contains(pName, "yağ") && !Contains(pName, "temizleme yağı") && !Contains(pName, "çay ağacı");
    var acnePoints :=
      if IsAcneProne(profile) then (if acneFriendly then 30 else 0) - (if heavyOil then 30 else 0) else 0;
    SkinTypePoints(userSkinType, pId, pDesc) + ProblemPoints(userProblems, pId, pName, pDesc)
    + sensitivePoints + acnePoints
  }

  /** `filter(item => item.score > 0)`: exactly the positively scored
      products are kept, each taken from the input. */
  function PositiveOnly(profile: Profile, s: seq<Product>): (r: seq<Product>)
    ensures forall k :: 0 <= k < |r| ==> Score(profile, r[k]) > 0
    ensures multiset(r) <= multiset(s)
    ensures forall x :: x in s && Score(profile, x) > 0 ==> x in r
  {
    if |s| == 0 then []
    else
      var rest := PositiveOnly(profile, s[..|s| - 1]);
      assert s == s[..|s| - 1] + [s[|s| - 1]];
      if Score(profile, s[|s| - 1]) > 0 then rest + [s[|s| - 1]] else rest
  }

  /** Inserts `x` after every product scoring at least as much (keeps the
      comparator sort stable). */
  function InsertByScore(profile: Profile, x: Product, s: seq<Product>): (r: seq<Product>)
    ensures multiset(r) == multiset(s) + multiset{x}
  {
    if |s| == 0 then [x]
    else if Score(profile, s[0]) >= Score(profile, x) then
      assert s == [s[0]] + s[1..];
      [s[0]] + InsertByScore(profile, x, s[1..])
    else [x] + s
  }

  /** `sort((a, b) => b.score - a.score)`: a stable sort by score, highest first. */
  function SortByScore(profile: Profile, s: seq<Product>): (r: seq<Product>)
    ensures multiset(r) == multiset(s)
  {
    if |s| == 0 then []
    else
      assert s == s[..|s| - 1] + [s[|s| - 1]];
      InsertByScore(profile, s[|s| - 1], SortByScore(profile, s[..|s| - 1]))
  }

  ghost predicate ScoreNonIncreasing(profile: Profile, s: seq<Product>)
  {
    forall i, j :: 0 <= i < j < |s| ==> Score(profile, s[i]) >= Score(profile, s[j])
  }

  lemma {:induction false} InsertByScoreSorted(profile: Profile, x: Product, s: seq<Product>)
    requires ScoreNonIncreasing(profile, s)
    ensures ScoreNonIncreasing(profile, InsertByScore(profile, x, s))
    decreases |s|
  {
    if |s| > 0 && Score(profile, s[0]) >= Score(profile, x) {
      InsertByScoreSorted(profile, x, s[1..]);
      var t := InsertByScore(profile, x, s[1..]);
      forall k | 0 <= k < |t| ensures Score(profile, s[0]) >= Score(profile, t[k]) {
        assert t[k] in multiset(t);
        assert t[k] == x || t[k] in multiset(s[1..]);
      }
    }
  }

  lemma {:induction false} SortByScoreSorted(profile: Profile, s: seq<Product>)
    ensures ScoreNonIncreasing(profile, SortByScore(profile, s))
    decreases |s|
  {
    if |s| > 0 {
      SortByScoreSorted(profile, s[..|s| - 1]);
      InsertByScoreSorted(profile, s[|s| - 1], SortByScore(profile, s[..|s| - 1]));
    }
  }

  /** The ranked products before the limit and the fallback. */
  function Ranked(cat: Catalogue, profile: Profile): seq<Product>
  {
    UniqueById(SortByScore(profile, PositiveOnly(profile, AllProducts(cat, 1000))))
  }

  /** `getAdvancedRecommendations(profile, limit)`. */
  function AdvancedRecommendations(cat: Catalogue, profile: Profile, limit: int): seq<Product>
  {
    var ranked := Ranked(cat, profile);
    if |ranked| == 0 then Trending(cat, limit) else SliceTo(ranked, limit)
  }

  /** The ranked list holds only positively scored catalogue products,
      highest score first, each id once, and every positively scored
      catalogue product has its id in it. */
  lemma RankedProps(cat: Catalogue, profile: Profile)
    ensures forall k :: 0 <= k < |Ranked(cat, profile)| ==> Score(profile, Ranked(cat, profile)[k]) > 0
    ensures forall k :: 0 <= k < |Ranked(cat, profile)| ==> Ranked(cat, profile)[k] in AllProducts(cat, 1000)
    ensures ScoreNonIncreasing(profile, Ranked(cat, profile))
    ensures DistinctIds(Ranked(cat, profile))
    ensures forall p :: p in AllProducts(cat, 1000) && Score(profile, p) > 0 ==> HasId(Ranked(cat, profile), p.id)
  {
    var pos := PositiveOnly(profile, AllProducts(cat, 1000));
    var sorted := SortByScore(profile, pos);
    SortByScoreSorted(profile, pos);
    var R := (a: Product, b: Product) => Score(profile, a) >= Score(profile, b);
    assert Ordered(sorted, R);
    UniqueByIdKeepsOrder(sorted, R);
    UniqueByIdProps(sorted);
    var u := UniqueById(sorted);
    assert Ordered(u, R);
    forall k | 0 <= k < |u| ensures Score(profile, u[k]) > 0 && u[k] in AllProducts(cat, 1000) {
      assert u[k] in sorted;
      assert u[k] in multiset(pos);
      assert u[k] in multiset(AllProducts(cat, 1000));
    }
    forall p | p in AllProducts(cat, 1000) && Score(profile, p) > 0
      ensures HasId(u, p.id)
    {
      assert p in multiset(sorted);
      var k :| 0 <= k < |sorted| && sorted[k] == p;
      assert HasId(sorted, p.id);
    }
  }

  /** The advanced recommendation falls back to the trending list exactly
      when no catalogue product scores above zero; otherwise it is the first
      `limit` entries of the ranking: positively scored products, highest
      score first, each id once. */
  lemma AdvancedRecommendationsProps(cat: Catalogue, profile: Profile, limit: int)
    ensures Ranked(cat, profile) == [] <==> forall p :: p in AllProducts(cat, 1000) ==> Score(profile, p) <= 0
    ensures Ranked(cat, profile) == [] ==> AdvancedRecommendations(cat, profile, limit) == Trending(cat, limit)
    ensures var u := Ranked(cat, profile);
      u != [] && limit >= 0 ==>
        AdvancedRecommendations(cat, profile, limit) == u[..if limit < |u| then limit else |u|]
    ensures Ranked(cat, profile) != [] ==>
      var r := AdvancedRecommendations(cat, profile, limit);
      && (forall k :: 0 <= k < |r| ==> Score(profile, r[k]) > 0)
      && ScoreNonIncreasing(profile, r)
      && DistinctIds(r)
      && (limit >= 0 ==> |r| <= limit)
  {
    var u := Ranked(cat, profile);
    RankedProps(cat, profile);
    if u != [] {
      assert u[0] in AllProducts(cat, 1000) && Score(profile, u[0]) > 0;
    }
    if exists p :: p in AllProducts(cat, 1000) && Score(profile, p) > 0 {
      var p :| p in AllProducts(cat, 1000) && Score(profile, p) > 0;
      assert HasId(u, p.id);
    }
    if u != [] {
      var r := SliceTo(u, limit);
      assert AdvancedRecommendations(cat, profile, limit) == r;
      PrefixKeepsRanking(profile, u, |r|);
    }
  }

  /** A prefix of a ranked list is ranked. */
  lemma PrefixKeepsRanking(profile: Profile, u: seq<Product>, m: nat)
    requires m <= |u|
    requires forall k :: 0 <= k < |u| ==> Score(profile, u[k]) > 0
    requires ScoreNonIncreasing(profile, u)
    requires DistinctIds(u)
    ensures forall k :: 0 <= k < m ==> Score(profile, u[..m][k]) > 0
    ensures ScoreNonIncreasing(profile, u[..m])
    ensures DistinctIds(u[..m])
  {
    var r := u[..m];
    assert forall k :: 0 <= k < m ==> r[k] == u[k];
  }
}
