/**
 * The package catalogue: a fixed in-memory list of package metadata and
 * its search, a case-insensitive substring filter followed by page/size
 * slicing with Python's slice semantics.
 */
module Packages {
  import opened Types

  /** The `PackageMetadata` record; `description`/`version` default to "", `tags` to []. */
  datatype PackageMetadata = PackageMetadata(
    name: string,
    description: string,
    version: string,
    tags: seq<string>)

  /** The names the repository preloads, in insertion order. */
  const PreloadNames: seq<string> := ["vim", "git", "curl", "htop", "nginx"]

  /** The record preloaded for `name`. */
  function Preloaded(name: string): PackageMetadata
  {
    PackageMetadata(name, name + " package", "latest", [])
  }

  /** `str.lower()` on one character, for the ASCII letters. */
  function LowerChar(c: char): char
  {
    if 'A' <= c <= 'Z' then (c as int + 32) as char else c
  }

  /** `str.lower()`: same length, no ASCII capital left, every other character kept. */
  function Lower(s: string): (r: string)
    ensures |r| == |s|
    ensures forall i :: 0 <= i < |r| ==> !('A' <= r[i] <= 'Z')
    ensures forall i :: 0 <= i < |s| && !('A' <= s[i] <= 'Z') ==> r[i] == s[i]
  {
    seq(|s|, i requires 0 <= i < |s| => LowerChar(s[i]))
  }

  /** Lower-casing twice is lower-casing once. */
  lemma LowerIdempotent(s: string)
    ensures Lower(Lower(s)) == Lower(s)
  {
    forall i | 0 <= i < |s| ensures Lower(Lower(s))[i] == Lower(s)[i] {
      var c := s[i];
      assert Lower(s)[i] == LowerChar(c);
    }
  }

  /** `needle` occurs in `hay` starting at index `i`. */
  predicate OccursAt(hay: string, needle: string, i: int)
  {
    0 <= i <= |hay| - |needle| && hay[i..i + |needle|] == needle
  }

  /** Python's substring test `needle in hay`. */
  predicate Contains(hay: string, needle: string)
  {
    exists i :: 0 <= i <= |hay| && OccursAt(hay, needle, i)
  }

  /** `" ".join(tags)` */
  function Join(tags: seq<string>): string
    decreases |tags|
  {
    if tags == [] then ""
    else if |tags| == 1 then tags[0]
    else tags[0] + " " + Join(tags[1..])
  }

  /** The comprehension's condition for an already lower-cased query `ql`. */
  predicate Matches(p: PackageMetadata, ql: string)
  {
    Contains(Lower(p.name), ql) || Contains(Lower(p.description), ql) || Contains(Join(p.tags), ql)
  }

  /**
   * The list comprehension: the matching entries, in catalogue order.
   * An entry is kept exactly when it matches.
   */
  function Filter(items: seq<PackageMetadata>, ql: string): (r: seq<PackageMetadata>)
    ensures |r| <= |items|
    ensures forall p :: p in r <==> p in items && Matches(p, ql)
    decreases |items|
  {
    if items == [] then []
    else
      var rest := Filter(items[1..], ql);
      assert forall p :: p in items <==> p == items[0] || p in items[1..];
      if Matches(items[0], ql) then [items[0]] + rest else rest
  }

  /** A single entry survives the comprehension exactly when it matches. */
  lemma FilterSingle(p: PackageMetadata, ql: string)
    ensures Filter([p], ql) == if Matches(p, ql) then [p] else []
  {
    assert [p][1..] == [];
  }

  /**
   * The comprehension keeps catalogue order: filtering a concatenation is
   * the concatenation of the filtered parts.
   */
  lemma {:induction false} FilterConcat(a: seq<PackageMetadata>, b: seq<PackageMetadata>, ql: string)
    ensures Filter(a + b, ql) == Filter(a, ql) + Filter(b, ql)
    decreases |a|
  {
    if a == [] {
      assert a + b == b;
    } else {
      assert (a + b)[0] == a[0];
      assert (a + b)[1..] == a[1..] + b;
      FilterConcat(a[1..], b, ql);
    }
  }

  /** When every entry matches, the comprehension drops nothing. */
  lemma {:induction false} FilterKeepsAll(items: seq<PackageMetadata>, ql: string)
    requires forall i :: 0 <= i < |items| ==> Matches(items[i], ql)
    ensures Filter(items, ql) == items
    decreases |items|
  {
    if items != [] {
      assert Matches(items[0], ql);
      FilterKeepsAll(items[1..], ql);
      assert [items[0]] + items[1..] == items;
    }
  }

  /** Where a Python slice bound lands in a sequence of length `n`. */
  function SliceIndex(i: int, n: nat): (r: nat)
    ensures r <= n
  {
    if i < 0 then (if i + n < 0 then 0 else i + n)
    else if i > n then n
    else i
  }

  /** Python's `s[start:end]` (step 1), negative and out-of-range bounds included. */
  function PySlice<T>(s: seq<T>, start: int, end: int): (r: seq<T>)
    ensures |r| <= |s|
    ensures forall i :: 0 <= i < |r| ==> SliceIndex(start, |s|) + i < |s| && r[i] == s[SliceIndex(start, |s|) + i]
  {
    var a, b := SliceIndex(start, |s|), SliceIndex(end, |s|);
    if a < b then s[a..b] else []
  }

  /** A slice never holds more than `end - start` entries. */
  lemma PySliceBounded<T>(s: seq<T>, start: int, end: int)
    requires start <= end
    ensures |PySlice(s, start, end)| <= end - start
  {
    var n := |s|;
    var a, b := SliceIndex(start, n), SliceIndex(end, n);
    if a < b {
      if start < 0 && end >= 0 {
        assert b <= end && a >= start + n;
      }
    }
  }

  /** With non-negative bounds a slice is the ordinary subsequence, cut at the end. */
  lemma PySliceNonNegative<T>(s: seq<T>, start: int, end: int)
    requires 0 <= start <= end
    ensures PySlice(s, start, end) ==
      s[(if start < |s| then start else |s|)..(if end < |s| then end else |s|)]
  {
  }

  /** The dictionary `search` returns. */
  datatype SearchResult = SearchResult(total: nat, page: int, size: int, items: seq<PackageMetadata>)

  /** The entries left after the `if q:` filter. */
  function Matching(catalogue: seq<PackageMetadata>, q: Option<string>): (r: seq<PackageMetadata>)
    ensures |r| <= |catalogue|
    ensures forall p :: p in r <==> p in catalogue && (q.Some? && q.value != "" ==> Matches(p, Lower(q.value)))
  {
    if q.Some? && q.value != "" then Filter(catalogue, Lower(q.value)) else catalogue
  }

  /**
   * `search(q, page, size)` over `catalogue`: an empty or missing query keeps
   * everything; `total` counts the matches; `items` is the page slice of them.
   */
  function SearchIn(catalogue: seq<PackageMetadata>, q: Option<string>, page: int, size: int): (r: SearchResult)
    ensures r.page == page && r.size == size
    ensures (q.None? || q == Some("")) ==> r.total == |catalogue|
    ensures r.total <= |catalogue|
    ensures forall p :: p in r.items ==> p in catalogue
    ensures q.Some? && q.value != "" ==> forall p :: p in r.items ==> Matches(p, Lower(q.value))
    ensures size >= 0 ==> |r.items| <= size
  {
    var items := Matching(catalogue, q);
    var start := (page - 1) * size;
    var end := start + size;
    var r := SearchResult(|items|, page, size, PySlice(items, start, end));
    assert size >= 0 ==> |r.items| <= size by {
      if size >= 0 { PySliceBounded(items, start, end); }
    }
    r
  }

  /** The number of matches does not depend on the page requested. */
  lemma {:induction false} TotalIgnoresPaging(catalogue: seq<PackageMetadata>, q: Option<string>,
                                               page1: int, size1: int, page2: int, size2: int)
    ensures SearchIn(catalogue, q, page1, size1).total == SearchIn(catalogue, q, page2, size2).total
    ensures SearchIn(catalogue, q, page1, size1).total == |Matching(catalogue, q)|
  {
  }

  /**
   * For a page number from 1 and a non-negative size, `items` is the
   * `page`-th run of `size` matches, cut short at the end of the matches.
   */
  lemma PageOfMatches(catalogue: seq<PackageMetadata>, q: Option<string>, page: int, size: int)
    requires page >= 1 && size >= 0
    ensures var m := Matching(catalogue, q);
      var lo := (page - 1) * size;
      var hi := page * size;
      SearchIn(catalogue, q, page, size).items ==
        m[(if lo < |m| then lo else |m|)..(if hi < |m| then hi else |m|)]
  {
    var lo := (page - 1) * size;
    assert lo >= 0 by { MulNonNegative(page - 1, size); }
    assert lo + size == page * size;
    PySliceNonNegative(Matching(catalogue, q), lo, lo + size);
  }

  lemma MulNonNegative(a: int, b: int)
    requires a >= 0 && b >= 0
    ensures a * b >= 0
  {
  }

  /** The query is lower-cased first, so its case never matters. */
  lemma QueryCaseIgnored(catalogue: seq<PackageMetadata>, q: string, page: int, size: int)
    ensures SearchIn(catalogue, Some(q), page, size) == SearchIn(catalogue, Some(Lower(q)), page, size)
  {
    LowerIdempotent(q);
    assert q == "" <==> Lower(q) == "";
  }

  /**
   * Page and size are used unchecked: page 1 with size -1 slices `[0:-1]`
   * and returns every entry but the last (nothing from an empty catalogue).
   */
  lemma NegativeSizeDropsLast(catalogue: seq<PackageMetadata>)
    ensures SearchIn(catalogue, None, 1, -1).items == if catalogue == [] then [] else catalogue[..|catalogue| - 1]
  {
    assert (1 - 1) * -1 == 0;
  }

  class PackageRepository {
    /** `_packages.values()`, in insertion order (the preloaded names are distinct). */
    var packages: seq<PackageMetadata>

    constructor ()
      ensures packages == seq(|PreloadNames|, i requires 0 <= i < |PreloadNames| => Preloaded(PreloadNames[i]))
    {
      var loaded := [];
      for i := 0 to |PreloadNames|
        invariant loaded == seq(i, k requires 0 <= k < i => Preloaded(PreloadNames[k]))
      {
        loaded := loaded + [Preloaded(PreloadNames[i])];
      }
      packages := loaded;
    }

    /** `search` on this repository's catalogue. */
    function Search(q: Option<string>, page: int, size: int): (r: SearchResult)
      reads this
      ensures r.total <= |packages| && forall p :: p in r.items ==> p in packages
      ensures (q.None? || q == Some("")) ==> r.total == |packages|
    {
      SearchIn(packages, q, page, size)
    }
  }
}
