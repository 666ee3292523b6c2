/**
  The certificate list of src/components/CertificatesSection.tsx: the
  category badges ("All" followed by every distinct category, in the order
  each first occurs) and the certificates shown for the selected filter.
*/
module Certificates {
  import opened Wrappers

  datatype Certificate = Certificate(
    id: string,
    title: string,
    issuer: string,
    date: string,
    credentialUrl: Option<string>,
    category: string)

  /** The badge that shows every certificate, and the initial filter. */
  const AllCategory: string := "All"

  /** The certificates shown when the component is given none. */
  function DefaultCertificates(): seq<Certificate> {
    [ Certificate("cert1", "Data Science Professional Certificate", "IBM", "June 2023",
                  Some("https://www.example.com/credential/123"), "Data Science"),
      Certificate("cert2", "Machine Learning Specialization", "Stanford University & Coursera", "August 2023",
                  Some("https://www.example.com/credential/456"), "Machine Learning"),
      Certificate("cert3", "SQL for Data Analysis", "DataCamp", "March 2023",
                  Some("https://www.example.com/credential/789"), "Database"),
      Certificate("cert4", "Python Programming", "Codecademy", "January 2023",
                  None, "Programming") ]
  }

  // ---------------------------------------------------------------------
  // Sequences without repetition, in first-occurrence order
  // ---------------------------------------------------------------------

  predicate NoDuplicates(s: seq<string>) {
    forall a, b :: 0 <= a < b < |s| ==> s[a] != s[b]
  }

  /** The position where `x` first occurs in `s`. */
  function FirstIndex(s: seq<string>, x: string): (i: nat)
    requires x in s
    ensures i < |s| && s[i] == x && x !in s[..i]
  {
    if s[0] == x then 0
    else
      var j := FirstIndex(s[1..], x);
      assert s[..j + 1] == [s[0]] + s[1..][..j];
      j + 1
  }

  /** An element of the prefix `s[..n]` first occurs in `s` where it first occurs in the prefix. */
  lemma FirstIndexInPrefix(s: seq<string>, n: nat, x: string)
    requires n <= |s| && x in s[..n]
    ensures FirstIndex(s, x) == FirstIndex(s[..n], x)
  {
  }

  /**
    `Array.from(new Set(s))`: each element of `s` once, in the order of its
    first occurrence (a JavaScript `Set` iterates in insertion order).
  */
  function Distinct(s: seq<string>): (r: seq<string>)
    decreases |s|
    ensures NoDuplicates(r)
    ensures forall x :: x in r <==> x in s
  {
    if s == [] then []
    else
      var prefix, last := s[..|s| - 1], s[|s| - 1];
      assert s == prefix + [last];
      var r := Distinct(prefix);
      if last in r then r else r + [last]
  }

  /** The distinct elements come in the order of their first occurrence. */
  lemma {:induction false} DistinctInFirstOccurrenceOrder(s: seq<string>)
    ensures forall a, b :: 0 <= a < b < |Distinct(s)| ==>
      FirstIndex(s, Distinct(s)[a]) < FirstIndex(s, Distinct(s)[b])
    decreases |s|
  {
    if s != [] {
      var prefix, last := s[..|s| - 1], s[|s| - 1];
      assert s == prefix + [last];
      DistinctInFirstOccurrenceOrder(prefix);
      var r := Distinct(prefix);
      forall x | x in prefix ensures FirstIndex(s, x) == FirstIndex(prefix, x) {
        FirstIndexInPrefix(s, |s| - 1, x);
      }
      if last !in r {
        assert FirstIndex(s, last) == |s| - 1;
      }
    }
  }

  /** `certificates.map((cert) => cert.category)`. */
  function CategoryList(certs: seq<Certificate>): (cs: seq<string>)
    ensures |cs| == |certs|
    ensures forall i :: 0 <= i < |certs| ==> cs[i] == certs[i].category
  {
    seq(|certs|, i requires 0 <= i < |certs| => certs[i].category)
  }

  /**
    The filter badges: "All" first, then every category that some
    certificate has, each once, in the order of its first occurrence.
  */
  function Categories(certs: seq<Certificate>): (cs: seq<string>)
    ensures |cs| >= 1 && cs[0] == AllCategory
    ensures forall c :: c in certs ==> c.category in cs
    ensures forall x :: x in cs[1..] <==> x in CategoryList(certs)
    ensures NoDuplicates(cs[1..])
  {
    var cs := [AllCategory] + Distinct(CategoryList(certs));
    assert cs[1..] == Distinct(CategoryList(certs));
    forall c | c in certs ensures c.category in cs {
      var i :| 0 <= i < |certs| && certs[i] == c;
      assert CategoryList(certs)[i] == c.category;
    }
    cs
  }

  /** The badges after "All" come in the order in which their categories first occur. */
  lemma CategoriesInFirstOccurrenceOrder(certs: seq<Certificate>)
    ensures forall a, b :: 1 <= a < b < |Categories(certs)| ==>
      FirstIndex(CategoryList(certs), Categories(certs)[a]) < FirstIndex(CategoryList(certs), Categories(certs)[b])
  {
    var cats := CategoryList(certs);
    DistinctInFirstOccurrenceOrder(cats);
    var cs := Categories(certs);
    forall a, b | 1 <= a < b < |cs| ensures FirstIndex(cats, cs[a]) < FirstIndex(cats, cs[b]) {
      assert cs[a] == Distinct(cats)[a - 1] && cs[b] == Distinct(cats)[b - 1];
    }
  }

  // ---------------------------------------------------------------------
  // Filtering
  // ---------------------------------------------------------------------

  /** `a` is `b` with some elements left out, the rest kept in order. */
  predicate IsSubsequence<T(==)>(a: seq<T>, b: seq<T>)
    decreases |b|
  {
    if b == [] then a == []
    else (a != [] && a[0] == b[0] && IsSubsequence(a[1..], b[1..])) || IsSubsequence(a, b[1..])
  }

  /** `certificates.filter((cert) => cert.category === f)`. */
  function ByCategory(certs: seq<Certificate>, f: string): (r: seq<Certificate>)
    decreases |certs|
    ensures |r| <= |certs|
    ensures IsSubsequence(r, certs)
    ensures forall c :: c in r ==> c.category == f
    ensures forall c :: multiset(r)[c] == if c.category == f then multiset(certs)[c] else 0
  {
    if certs == [] then []
    else
      var rest := ByCategory(certs[1..], f);
      assert certs == [certs[0]] + certs[1..];
      if certs[0].category == f then
        assert ([certs[0]] + rest)[1..] == rest;
        [certs[0]] + rest
      else rest
  }

  /** The certificates shown when the badge `filter` is selected. */
  function Filtered(certs: seq<Certificate>, filter: string): (r: seq<Certificate>)
    ensures filter == AllCategory ==> r == certs
    ensures filter != AllCategory ==> forall c :: c in r ==> c.category == filter
    ensures filter != AllCategory ==>
      forall c :: multiset(r)[c] == if c.category == filter then multiset(certs)[c] else 0
    ensures IsSubsequence(r, certs) && |r| <= |certs|
  {
    if filter == AllCategory then
      SubsequenceOfItself(certs);
      certs
    else ByCategory(certs, filter)
  }

  lemma {:induction false} SubsequenceOfItself<T>(s: seq<T>)
    ensures IsSubsequence(s, s)
    decreases |s|
  {
    if s != [] {
      SubsequenceOfItself(s[1..]);
    }
  }

  /** Filtering the shown list again with the same filter changes nothing. */
  lemma {:induction false} ByCategoryIdempotent(certs: seq<Certificate>, f: string)
    ensures ByCategory(ByCategory(certs, f), f) == ByCategory(certs, f)
    decreases |certs|
  {
    if certs != [] {
      ByCategoryIdempotent(certs[1..], f);
      var rest := ByCategory(certs[1..], f);
      if certs[0].category == f {
        assert ([certs[0]] + rest)[1..] == rest;
      }
    }
  }

  lemma FilteredIdempotent(certs: seq<Certificate>, filter: string)
    ensures Filtered(Filtered(certs, filter), filter) == Filtered(certs, filter)
  {
    if filter != AllCategory {
      ByCategoryIdempotent(certs, filter);
    }
  }

  /** Every badge other than "All" shows at least one certificate. */
  lemma ListedCategoryNonEmpty(certs: seq<Certificate>, category: string)
    requires category in Categories(certs) && category != AllCategory
    ensures |Filtered(certs, category)| > 0
  {
  }

  lemma {:induction false} SingleOccurrence(s: seq<string>, x: string)
    requires NoDuplicates(s) && x in s
    ensures multiset(s)[x] == 1
    decreases |s|
  {
    assert s == [s[0]] + s[1..];
    if s[0] == x {
      assert x !in s[1..];
    } else {
      SingleOccurrence(s[1..], x);
    }
  }

  /**
    Nothing keeps a certificate from having the category "All": then "All"
    is listed twice, and both badges show the whole list.
  */
  lemma AllListedTwice(certs: seq<Certificate>, c: Certificate)
    requires c in certs && c.category == AllCategory
    ensures multiset(Categories(certs))[AllCategory] == 2
    ensures Filtered(certs, AllCategory) == certs
  {
    var cs := Categories(certs);
    assert cs == [AllCategory] + cs[1..];
    assert AllCategory in cs[1..];
    SingleOccurrence(cs[1..], AllCategory);
  }

  /** A sequence that has no repetition is its own set of distinct elements. */
  lemma {:induction false} DistinctOfNoDuplicates(s: seq<string>)
    requires NoDuplicates(s)
    ensures Distinct(s) == s
    decreases |s|
  {
    if s != [] {
      var prefix := s[..|s| - 1];
      assert NoDuplicates(prefix);
      DistinctOfNoDuplicates(prefix);
      assert s[|s| - 1] !in prefix;
      assert s == prefix + [s[|s| - 1]];
    }
  }

  /** The badges shown for the default certificates. */
  lemma DefaultCategories()
    ensures Categories(DefaultCertificates())
         == ["All", "Data Science", "Machine Learning", "Database", "Programming"]
  {
    var ds, ml, db, pr := "Data Science", "Machine Learning", "Database", "Programming";
    var cats := CategoryList(DefaultCertificates());
    assert cats == [ds, ml, db, pr];
    assert ml != ds by { assert ml[0] != ds[0]; }
    assert db != ds by { assert db[4] != ds[4]; }
    assert db != ml by { assert db[0] != ml[0]; }
    assert pr != ds && pr != ml && pr != db by { assert pr[0] != ds[0] && pr[0] != ml[0] && pr[0] != db[0]; }
    DistinctOfNoDuplicates(cats);
  }
}
