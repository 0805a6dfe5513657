/** Option, Result, and the few string operations the planner and the executor rely on. */
module Prelude {
  datatype Option<+T> = None | Some(value: T)

  datatype Result<+T, +E> = Ok(value: T) | Err(error: E)

  // ----- order on strings: code point by code point, as Python compares them -----

  predicate LexLe(a: string, b: string) {
    a == "" || (b != "" && (a[0] < b[0] || (a[0] == b[0] && LexLe(a[1..], b[1..]))))
  }

  lemma {:induction false} LexTotal(a: string, b: string)
    ensures LexLe(a, b) || LexLe(b, a)
  {
    if a != "" && b != "" && a[0] == b[0] {
      LexTotal(a[1..], b[1..]);
    }
  }

  lemma {:induction false} LexTransitive(a: string, b: string, c: string)
    requires LexLe(a, b) && LexLe(b, c)
    ensures LexLe(a, c)
  {
    if a != "" && a[0] == b[0] == c[0] {
      LexTransitive(a[1..], b[1..], c[1..]);
    }
  }

  ghost predicate Sorted(s: seq<string>) {
    forall i, j :: 0 <= i < j < |s| ==> LexLe(s[i], s[j])
  }

  function InsertSorted(x: string, s: seq<string>): seq<string> {
    if s == [] || LexLe(x, s[0]) then [x] + s else [s[0]] + InsertSorted(x, s[1..])
  }

  /** Python's `sorted` on a list of strings. */
  function Sort(s: seq<string>): seq<string> {
    if s == [] then [] else InsertSorted(s[0], Sort(s[1..]))
  }

  lemma {:induction false} InsertSortedKeepsOrder(x: string, s: seq<string>)
    requires Sorted(s)
    ensures Sorted(InsertSorted(x, s))
    ensures multiset(InsertSorted(x, s)) == multiset{x} + multiset(s)
  {
    if s == [] {
    } else if LexLe(x, s[0]) {
      forall j | 0 <= j < |s| ensures LexLe(x, s[j]) {
        if j > 0 { LexTransitive(x, s[0], s[j]); }
      }
    } else {
      LexTotal(x, s[0]);
      InsertSortedKeepsOrder(x, s[1..]);
      assert s == [s[0]] + s[1..];
      var t := InsertSorted(x, s[1..]);
      forall j | 0 <= j < |t| ensures LexLe(s[0], t[j]) {
        assert t[j] in multiset(t);
        assert t[j] == x || t[j] in s[1..];
      }
    }
  }

  lemma {:induction false} SortSorts(s: seq<string>)
    ensures Sorted(Sort(s))
    ensures multiset(Sort(s)) == multiset(s)
  {
    if s != [] {
      SortSorts(s[1..]);
      InsertSortedKeepsOrder(s[0], Sort(s[1..]));
      assert s == [s[0]] + s[1..];
    }
  }

  lemma {:induction false} SortKeepsMembers(s: seq<string>)
    ensures |Sort(s)| == |s|
    ensures forall x :: x in Sort(s) <==> x in s
  {
    SortSorts(s);
    assert |multiset(Sort(s))| == |multiset(s)|;
    forall x ensures x in Sort(s) <==> x in s {
      assert x in Sort(s) <==> x in multiset(Sort(s));
      assert x in s <==> x in multiset(s);
    }
  }

  // ----- blank strings and stripping -----

  predicate IsSpace(c: char) { c in " \t\n\r" }

  function StripLeft(s: string): string {
    if s != "" && IsSpace(s[0]) then StripLeft(s[1..]) else s
  }

  function StripRight(s: string): string {
    if s != "" && IsSpace(s[|s| - 1]) then StripRight(s[..|s| - 1]) else s
  }

  /** `str.strip()` */
  function Strip(s: string): string { StripRight(StripLeft(s)) }

  predicate Blank(s: string) { Strip(s) == "" }

  /** `_string_or_none`: strip, and turn a blank string into None. */
  function StringOrNone(s: Option<string>): Option<string> {
    if s.None? || Blank(s.value) then None else Some(Strip(s.value))
  }
}
