/** The OVH product catalogue: every product coded `OVH-<service prefix>`, sorted so that
    the first entry whose prefix starts a line's service is the longest such prefix. */
module Catalogue {
  import opened Results
  import opened Text
  import opened Records

  /** The code prefix that marks an OVH product; its length is what is cut off each code. */
  const CodePrefix: string := "OVH-"

  /** A catalogue entry: the service prefix a product stands for, and the product. */
  datatype Entry = Entry(service: string, product: Product)

  /** The entry of one product: its internal code without the first four characters. */
  function EntryOf(p: Product): (e: Entry)
    ensures e.product == p
    ensures |p.defaultCode| < |CodePrefix| ==> e.service == []
    ensures |p.defaultCode| >= |CodePrefix| ==> p.defaultCode[..|CodePrefix|] + e.service == p.defaultCode
  {
    Entry(Drop(p.defaultCode, |CodePrefix|), p)
  }

  /** For a code that does carry the OVH prefix, the prefix and the entry's service give the code back. */
  lemma CodeRoundTrip(p: Product)
    requires StartsWith(p.defaultCode, CodePrefix)
    ensures CodePrefix + EntryOf(p).service == p.defaultCode
  {
    StripPrefix(p.defaultCode, CodePrefix);
  }

  /** The entries of the products, in the order the host found the products. */
  function Entries(products: seq<Product>): (r: seq<Entry>)
    ensures |r| == |products|
    ensures forall i :: 0 <= i < |r| ==> r[i] == EntryOf(products[i])
  {
    if products == [] then [] else [EntryOf(products[0])] + Entries(products[1..])
  }

  /** Entries ordered by non-increasing prefix length. */
  ghost predicate SortedByLength(s: seq<Entry>) {
    forall i, j :: 0 <= i < j < |s| ==> |s[j].service| <= |s[i].service|
  }

  /** The entries of `s` whose prefix has `n` characters, in their order in `s`. */
  function WithLength(s: seq<Entry>, n: nat): seq<Entry> {
    if s == [] then []
    else (if |s[0].service| == n then [s[0]] else []) + WithLength(s[1..], n)
  }

  /** Puts `e` in front of the first entry whose prefix is no longer than its own. */
  function Insert(e: Entry, t: seq<Entry>): (r: seq<Entry>)
    ensures multiset(r) == multiset(t) + multiset{e}
    ensures forall x :: x in r ==> x == e || x in t
  {
    if t == [] || |t[0].service| <= |e.service| then
      [e] + t
    else
      assert t == [t[0]] + t[1..];
      [t[0]] + Insert(e, t[1..])
  }

  lemma {:induction false} InsertKeepsSorted(e: Entry, t: seq<Entry>)
    requires SortedByLength(t)
    ensures SortedByLength(Insert(e, t))
  {
    if t == [] || |t[0].service| <= |e.service| {
    } else {
      var r' := Insert(e, t[1..]);
      InsertKeepsSorted(e, t[1..]);
      assert forall x :: x in t[1..] ==> |x.service| <= |t[0].service|;
      assert forall j :: 0 <= j < |r'| ==> r'[j] in r';
      assert Insert(e, t) == [t[0]] + r';
    }
  }

  /** Inserting an entry adds it in front of the entries of its own length and changes no other length. */
  lemma {:induction false} InsertWithLength(e: Entry, t: seq<Entry>, n: nat)
    ensures WithLength(Insert(e, t), n) == (if |e.service| == n then [e] else []) + WithLength(t, n)
  {
    if t == [] || |t[0].service| <= |e.service| {
      assert ([e] + t)[1..] == t;
    } else {
      var r' := Insert(e, t[1..]);
      InsertWithLength(e, t[1..], n);
      assert ([t[0]] + r')[1..] == r';
    }
  }

  /** Python's stable `sorted` keyed on minus the prefix length, as an insertion sort. */
  function SortByLength(s: seq<Entry>): (r: seq<Entry>)
    ensures multiset(r) == multiset(s)
    ensures SortedByLength(r)
    ensures forall n: nat :: WithLength(r, n) == WithLength(s, n)
  {
    if s == [] then []
    else
      var rest := SortByLength(s[1..]);
      assert s == [s[0]] + s[1..];
      InsertKeepsSorted(s[0], rest);
      assert forall n: nat :: WithLength(Insert(s[0], rest), n) == WithLength(s, n) by {
        forall n: nat ensures WithLength(Insert(s[0], rest), n) == WithLength(s, n) {
          InsertWithLength(s[0], rest, n);
        }
      }
      Insert(s[0], rest)
  }

  /** Sorting loses no product's entry and brings in nothing else. */
  lemma EntriesSurviveSort(products: seq<Product>)
    ensures forall e :: e in SortByLength(Entries(products)) ==> e.product in products && e == EntryOf(e.product)
    ensures forall p :: p in products ==> EntryOf(p) in SortByLength(Entries(products))
  {
    var all := Entries(products);
    var r := SortByLength(all);
    assert forall e :: e in r ==> e in multiset(all);
    forall p | p in products
      ensures EntryOf(p) in r
    {
      var i :| 0 <= i < |products| && products[i] == p;
      assert all[i] in multiset(all);
    }
  }

  /** The product list of `get_ovh_products`: a stable sort, longest prefix first. */
  function OvhProducts(products: seq<Product>): (r: seq<Entry>)
    ensures multiset(r) == multiset(Entries(products))
    ensures forall e :: e in r ==> e.product in products && e == EntryOf(e.product)
    ensures forall p :: p in products ==> EntryOf(p) in r
    ensures SortedByLength(r)
    ensures forall n: nat :: WithLength(r, n) == WithLength(Entries(products), n)
  {
    var r := SortByLength(Entries(products));
    EntriesSurviveSort(products);
    r
  }

  /** Position of the first entry whose prefix starts `service`; `|entries|` when none does. */
  function FirstMatchIndex(entries: seq<Entry>, service: string): (k: nat)
    ensures k <= |entries|
    ensures k < |entries| ==> StartsWith(service, entries[k].service)
    ensures forall j :: 0 <= j < k ==> !StartsWith(service, entries[j].service)
  {
    if entries == [] then 0
    else if StartsWith(service, entries[0].service) then 0
    else 1 + FirstMatchIndex(entries[1..], service)
  }

  /** The product-matching loop: the first entry whose prefix starts `service`, if any. */
  function FirstMatch(entries: seq<Entry>, service: string): (r: Option<Entry>)
    ensures r.None? <==> forall e :: e in entries ==> !StartsWith(service, e.service)
    ensures r.Some? ==> r.value in entries && StartsWith(service, r.value.service)
    ensures r.Some? && SortedByLength(entries) ==>
              forall x :: x in entries && StartsWith(service, x.service) ==> |x.service| <= |r.value.service|
  {
    var k := FirstMatchIndex(entries, service);
    if k < |entries| then Some(entries[k]) else None
  }

  /** Matching against the sorted catalogue picks a longest matching prefix, and fails only
      when no product's prefix matches at all. */
  lemma LongestPrefixMatch(products: seq<Product>, service: string)
    ensures FirstMatch(OvhProducts(products), service).None? <==>
              forall p :: p in products ==> !StartsWith(service, EntryOf(p).service)
    ensures FirstMatch(OvhProducts(products), service).Some? ==>
              var e := FirstMatch(OvhProducts(products), service).value;
              && e.product in products
              && StartsWith(service, e.service)
              && forall p :: p in products && StartsWith(service, EntryOf(p).service) ==>
                   |EntryOf(p).service| <= |e.service|
  {
  }

  /** Matching a list with one more entry in front: that entry if its prefix matches, else as before. */
  lemma FirstMatchCons(x: Entry, t: seq<Entry>, service: string)
    ensures FirstMatch([x] + t, service) ==
              if StartsWith(service, x.service) then Some(x) else FirstMatch(t, service)
  {
    assert ([x] + t)[1..] == t;
    if !StartsWith(service, x.service) {
      assert FirstMatchIndex([x] + t, service) == 1 + FirstMatchIndex(t, service);
    }
  }

  /** The first entry of `s` whose prefix starts `service` is also the first such entry
      among the entries of `s` that have its prefix length. */
  lemma {:induction false} FirstMatchWithinLength(s: seq<Entry>, service: string)
    requires FirstMatch(s, service).Some?
    ensures FirstMatch(WithLength(s, |FirstMatch(s, service).value.service|), service) == FirstMatch(s, service)
  {
    var e := FirstMatch(s, service).value;
    var n := |e.service|;
    var t := s[1..];
    assert s == [s[0]] + t;
    FirstMatchCons(s[0], t, service);
    if StartsWith(service, s[0].service) {
      assert WithLength(s, n) == [e] + WithLength(t, n);
      FirstMatchCons(e, WithLength(t, n), service);
    } else {
      FirstMatchWithinLength(t, service);
      if |s[0].service| == n {
        assert WithLength(s, n) == [s[0]] + WithLength(t, n);
        FirstMatchCons(s[0], WithLength(t, n), service);
      } else {
        assert WithLength(s, n) == WithLength(t, n);
      }
    }
  }

  /** Among prefixes of equal length the sort keeps the host's search order, so a tie between
      longest matching prefixes goes to the product found first. */
  lemma TieGoesToSearchOrder(products: seq<Product>, service: string)
    requires FirstMatch(OvhProducts(products), service).Some?
    ensures var e := FirstMatch(OvhProducts(products), service).value;
            FirstMatch(WithLength(Entries(products), |e.service|), service) == Some(e)
  {
    FirstMatchWithinLength(OvhProducts(products), service);
  }
}
