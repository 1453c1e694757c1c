/** Strings as the pipeline normalises them: trimming, lower-casing, the
    order behind sort.Strings, and joining with a comma. Letters and white
    space are the ASCII ones. */
module Text {
  import opened Orders

  // ----- trimming and lower-casing -----

  predicate IsSpace(c: char) {
    c == ' ' || c == '\t' || c == '\n' || c == '\r' || c == '\U{000B}' || c == '\U{000C}'
  }

  function LowerChar(c: char): char {
    if 'A' <= c <= 'Z' then (c as int + 32) as char else c
  }

  function Lower(s: string): (r: string)
    ensures |r| == |s|
    ensures forall i :: 0 <= i < |s| ==> r[i] == LowerChar(s[i])
  {
    seq(|s|, i requires 0 <= i < |s| => LowerChar(s[i]))
  }

  function TrimLeft(s: string): string {
    if s != [] && IsSpace(s[0]) then TrimLeft(s[1..]) else s
  }

  function TrimRight(s: string): string {
    if s != [] && IsSpace(s[|s| - 1]) then TrimRight(s[..|s| - 1]) else s
  }

  function Trim(s: string): string {
    TrimRight(TrimLeft(s))
  }

  /** strings.ToLower(strings.TrimSpace(s)). */
  function Norm(s: string): string {
    Lower(Trim(s))
  }

  /** A string no trimming changes. */
  predicate Trimmed(s: string) {
    s != [] ==> !IsSpace(s[0]) && !IsSpace(s[|s| - 1])
  }

  predicate Lowered(s: string) {
    forall i :: 0 <= i < |s| ==> LowerChar(s[i]) == s[i]
  }

  lemma {:induction false} TrimLeftDrops(s: string)
    ensures |TrimLeft(s)| <= |s| && TrimLeft(s) == s[|s| - |TrimLeft(s)|..]
    ensures TrimLeft(s) != [] ==> !IsSpace(TrimLeft(s)[0])
  {
    if s != [] && IsSpace(s[0]) {
      TrimLeftDrops(s[1..]);
    }
  }

  lemma {:induction false} TrimRightDrops(s: string)
    ensures |TrimRight(s)| <= |s| && TrimRight(s) == s[..|TrimRight(s)|]
    ensures TrimRight(s) != [] ==> !IsSpace(TrimRight(s)[|TrimRight(s)| - 1])
  {
    if s != [] && IsSpace(s[|s| - 1]) {
      TrimRightDrops(s[..|s| - 1]);
    }
  }

  lemma {:induction false} TrimLeftIs(s: string)
    ensures forall k :: 0 <= k < |s| - |TrimLeft(s)| ==> IsSpace(s[k])
  {
    if s != [] && IsSpace(s[0]) {
      TrimLeftIs(s[1..]);
      TrimLeftDrops(s[1..]);
      assert forall k :: 0 < k < |s| ==> s[k] == s[1..][k - 1];
    }
  }

  lemma {:induction false} TrimRightIs(s: string)
    ensures forall k :: |TrimRight(s)| <= k < |s| ==> IsSpace(s[k])
  {
    if s != [] && IsSpace(s[|s| - 1]) {
      TrimRightIs(s[..|s| - 1]);
    }
  }

  /** Trimming cuts off white space at both ends, and nothing else. */
  lemma TrimIsSlice(s: string)
    ensures exists i, j :: 0 <= i <= j <= |s| && Trim(s) == s[i..j]
                           && (forall k :: 0 <= k < i ==> s[k] in " \t\n\r\U{000B}\U{000C}")
                           && (forall k :: j <= k < |s| ==> s[k] in " \t\n\r\U{000B}\U{000C}")
  {
    var left := TrimLeft(s);
    var i := |s| - |left|;
    TrimLeftDrops(s);
    TrimLeftIs(s);
    TrimRightDrops(left);
    TrimRightIs(left);
    var j := i + |TrimRight(left)|;
    assert Trim(s) == s[i..j];
    forall k | j <= k < |s| ensures IsSpace(s[k]) {
      assert s[k] == left[k - i];
    }
    assert forall c :: IsSpace(c) <==> c in " \t\n\r\U{000B}\U{000C}";
  }

  lemma TrimIsTrimmed(s: string)
    ensures Trimmed(Trim(s))
  {
    TrimLeftDrops(s);
    TrimRightDrops(TrimLeft(s));
  }

  lemma TrimmedIsFixed(s: string)
    requires Trimmed(s)
    ensures Trim(s) == s
  {
  }

  lemma LowerKeepsTrimmed(s: string)
    requires Trimmed(s)
    ensures Trimmed(Lower(s)) && Lowered(Lower(s))
  {
  }

  lemma LoweredIsFixed(s: string)
    requires Lowered(s)
    ensures Lower(s) == s
  {
  }

  /** The normaliser reaches its fixed points in one application. */
  lemma NormFixes(s: string)
    ensures Trimmed(Norm(s)) && Lowered(Norm(s)) && Norm(Norm(s)) == Norm(s)
    ensures Norm(Trim(s)) == Norm(s)
  {
    TrimIsTrimmed(s);
    LowerKeepsTrimmed(Trim(s));
    NormOfFixed(Norm(s));
    TrimmedIsFixed(Trim(s));
  }

  lemma NormOfFixed(s: string)
    requires Trimmed(s) && Lowered(s)
    ensures Norm(s) == s
  {
    TrimmedIsFixed(s);
    LoweredIsFixed(s);
  }

  // ----- the byte order of sort.Strings -----

  predicate Less(a: string, b: string) {
    if b == [] then false
    else if a == [] then true
    else if a[0] != b[0] then a[0] < b[0]
    else Less(a[1..], b[1..])
  }

  lemma {:induction false} LessIrreflexive(a: string)
    ensures !Less(a, a)
  {
    if a != [] {
      LessIrreflexive(a[1..]);
    }
  }

  lemma {:induction false} LessTransitive(a: string, b: string, c: string)
    requires Less(a, b) && Less(b, c)
    ensures Less(a, c)
  {
    if a != [] && a[0] == b[0] == c[0] {
      LessTransitive(a[1..], b[1..], c[1..]);
    }
  }

  lemma {:induction false} LessTotal(a: string, b: string)
    ensures a == b || Less(a, b) || Less(b, a)
  {
    if a != [] && b != [] && a[0] == b[0] {
      LessTotal(a[1..], b[1..]);
      assert a == [a[0]] + a[1..] && b == [b[0]] + b[1..];
    }
  }

  lemma LessIsStrict()
    ensures StrictOrder(Less)
  {
    forall a ensures !Less(a, a) {
      LessIrreflexive(a);
    }
    forall a, b, c | Less(a, b) && Less(b, c) ensures Less(a, c) {
      LessTransitive(a, b, c);
    }
    forall a, b ensures a == b || Less(a, b) || Less(b, a) {
      LessTotal(a, b);
    }
  }

  // ----- sorted lists of strings -----

  ghost predicate Ascending(s: seq<string>) {
    AscendingBy(s, Less)
  }

  /** sort.Strings: duplicates stay. */
  function SortStrings(values: seq<string>): seq<string> {
    SortBy(values, (x: string) => x, Less)
  }

  ghost predicate Distinct<T>(s: seq<T>) {
    forall i, j :: 0 <= i < j < |s| ==> s[i] != s[j]
  }

  lemma AscendingUnique(a: seq<string>, b: seq<string>)
    requires Ascending(a) && Ascending(b)
    requires forall x :: x in a <==> x in b
    ensures a == b
  {
    LessIsStrict();
    AscendingByUnique(a, b, Less);
  }

  lemma SortDistinct(values: seq<string>)
    requires Distinct(values)
    ensures Ascending(SortStrings(values))
    ensures forall x :: x in SortStrings(values) <==> x in values
  {
    LessIsStrict();
    SortKeys(values, (x: string) => x, Less);
    assert KeysBy(SortStrings(values), (x: string) => x) == SortStrings(values);
  }

  lemma SortAscending(values: seq<string>)
    requires Ascending(values)
    ensures SortStrings(values) == values
  {
    LessIsStrict();
    forall i, j | 0 <= i < j < |values| ensures values[i] != values[j] {
      assert Less(values[i], values[j]);
    }
    SortDistinct(values);
    AscendingUnique(SortStrings(values), values);
  }

  /** The distinct non-blank normal forms, in first-seen order. */
  function DistinctNorms(values: seq<string>): seq<string> {
    if values == [] then []
    else
      var seen, last := DistinctNorms(values[..|values| - 1]), Norm(values[|values| - 1]);
      if last == "" || last in seen then seen else seen + [last]
  }

  function UniqueNormalized(values: seq<string>): seq<string> {
    SortStrings(DistinctNorms(values))
  }

  ghost predicate HasNorm(values: seq<string>, x: string) {
    exists i :: 0 <= i < |values| && Norm(values[i]) == x
  }

  lemma HasNormAppend(values: seq<string>, v: string)
    ensures forall x :: HasNorm(values + [v], x) <==> HasNorm(values, x) || Norm(v) == x
  {
    forall x ensures HasNorm(values + [v], x) <==> HasNorm(values, x) || Norm(v) == x {
      if HasNorm(values, x) {
        var i :| 0 <= i < |values| && Norm(values[i]) == x;
        assert Norm((values + [v])[i]) == x;
      }
      assert (values + [v])[|values|] == v;
    }
  }

  lemma {:induction false} DistinctNormsContents(values: seq<string>)
    ensures Distinct(DistinctNorms(values))
    ensures forall x :: x in DistinctNorms(values) <==> x != "" && HasNorm(values, x)
  {
    if values != [] {
      DistinctNormsContents(values[..|values| - 1]);
      HasNormAppend(values[..|values| - 1], values[|values| - 1]);
      assert values == values[..|values| - 1] + [values[|values| - 1]];
    }
  }

  lemma UniqueNormalizedContents(values: seq<string>)
    ensures Ascending(UniqueNormalized(values))
    ensures forall x :: x in UniqueNormalized(values) <==> x != "" && HasNorm(values, x)
  {
    DistinctNormsContents(values);
    SortDistinct(DistinctNorms(values));
  }

  /** What uniqueNormalizedStrings returns for its own results: themselves. */
  ghost predicate NormalList(values: seq<string>) {
    Ascending(values) && forall x :: x in values ==> x != "" && Trimmed(x) && Lowered(x)
  }

  lemma UniqueNormalizedIsNormal(values: seq<string>)
    ensures NormalList(UniqueNormalized(values))
  {
    UniqueNormalizedContents(values);
    forall x | x in UniqueNormalized(values) ensures Trimmed(x) && Lowered(x) {
      var i :| 0 <= i < |values| && Norm(values[i]) == x;
      NormFixes(values[i]);
    }
  }

  lemma NormalListIsFixed(values: seq<string>)
    requires NormalList(values)
    ensures UniqueNormalized(values) == values
  {
    UniqueNormalizedContents(values);
    forall x ensures x in UniqueNormalized(values) <==> x in values {
      if x in values {
        NormOfFixed(x);
      }
      if x in UniqueNormalized(values) {
        var i :| 0 <= i < |values| && Norm(values[i]) == x;
        assert values[i] in values;
        NormOfFixed(values[i]);
      }
    }
    AscendingUnique(UniqueNormalized(values), values);
  }

  /** Two normal lists appended and normalised again: their union. */
  lemma UniqueNormalizedUnion(a: seq<string>, b: seq<string>)
    requires NormalList(a) && NormalList(b)
    ensures NormalList(UniqueNormalized(a + b))
    ensures forall x :: x in UniqueNormalized(a + b) <==> x in a || x in b
  {
    UniqueNormalizedIsNormal(a + b);
    UniqueNormalizedContents(a + b);
    forall x ensures x in UniqueNormalized(a + b) <==> x in a || x in b {
      if x in a || x in b {
        assert x in a + b;
        var i :| 0 <= i < |a + b| && (a + b)[i] == x;
        NormOfFixed(x);
      }
      if x in UniqueNormalized(a + b) {
        var i :| 0 <= i < |a + b| && Norm((a + b)[i]) == x;
        assert (a + b)[i] in a + b;
        NormOfFixed((a + b)[i]);
      }
    }
  }

  /** The deduplicating loop with its seen-set, then the sort. */
  method UniqueNormalizedStrings(values: seq<string>) returns (out: seq<string>)
    ensures out == UniqueNormalized(values)
    ensures NormalList(out)
    ensures forall x :: x in out <==> x != "" && HasNorm(values, x)
  {
    var seen: set<string> := {};
    out := [];
    for i := 0 to |values|
      invariant forall x :: x in seen <==> x in out
      invariant out == DistinctNorms(values[..i])
    {
      var normalized := Norm(values[i]);
      assert values[..i + 1][..i] == values[..i];
      if normalized == "" {
        continue;
      }
      if normalized in seen {
        continue;
      }
      seen := seen + {normalized};
      out := out + [normalized];
    }
    assert values[..|values|] == values;
    UniqueNormalizedContents(values);
    UniqueNormalizedIsNormal(values);
    out := SortStrings(out);
  }

  // ----- strings.Join(_, ",") -----

  function Join(parts: seq<string>): string {
    if parts == [] then ""
    else if |parts| == 1 then parts[0]
    else parts[0] + "," + Join(parts[1..])
  }

  ghost predicate CommaFree(parts: seq<string>) {
    forall x :: x in parts ==> ',' !in x
  }

  /** Joining loses nothing when no part holds a comma. */
  lemma {:induction false} JoinInjective(a: seq<string>, b: seq<string>)
    requires CommaFree(a) && CommaFree(b)
    requires a != [] && b != []
    requires Join(a) == Join(b)
    ensures a == b
  {
    FirstComma(a);
    FirstComma(b);
    var j := Join(a);
    assert a[0] == j[..|a[0]|] && b[0] == j[..|b[0]|];
    assert |a[0]| == |b[0]|;
    if |a| > 1 && |b| > 1 {
      assert Join(a[1..]) == j[|a[0]| + 1..] && Join(b[1..]) == j[|b[0]| + 1..];
      JoinInjective(a[1..], b[1..]);
      assert a == [a[0]] + a[1..] && b == [b[0]] + b[1..];
    }
  }

  lemma FirstComma(a: seq<string>)
    requires CommaFree(a) && a != []
    ensures a[0] in a && a[0] <= Join(a)
    ensures |a| > 1 ==> |Join(a)| > |a[0]| && Join(a)[|a[0]|] == ','
    ensures |a| == 1 ==> Join(a) == a[0]
  {
  }

  lemma NormKeepsCommaFree(s: string)
    requires ',' !in s
    ensures ',' !in Norm(s)
  {
    TrimLeftDrops(s);
    TrimRightDrops(TrimLeft(s));
    forall i | 0 <= i < |Norm(s)| ensures Norm(s)[i] != ',' {
      assert Trim(s)[i] in s;
    }
  }

  lemma UniqueNormalizedCommaFree(values: seq<string>)
    requires CommaFree(values)
    ensures CommaFree(UniqueNormalized(values))
  {
    UniqueNormalizedContents(values);
    forall x | x in UniqueNormalized(values) ensures ',' !in x {
      var i :| 0 <= i < |values| && Norm(values[i]) == x;
      NormKeepsCommaFree(values[i]);
    }
  }

  /** A proper sub-list of an ascending list joins to a shorter string. */
  lemma {:induction false} JoinShorter(a: seq<string>, b: seq<string>)
    requires Ascending(a) && Ascending(b)
    requires forall x :: x in b ==> x in a
    requires a != b && b != []
    ensures |Join(b)| < |Join(a)|
  {
    assert b[0] in b && b[0] in a;
    LessIsStrict();
    TailBy(a, Less);
    TailBy(b, Less);
    if a[0] == b[0] {
      assert a == [a[0]] + a[1..] && b == [b[0]] + b[1..];
      if |b| > 1 {
        JoinShorter(a[1..], b[1..]);
      }
    } else {
      if a[1..] != b {
        JoinShorter(a[1..], b);
      }
    }
  }

  // ----- texts around a bar -----

  predicate BarFree(s: string) {
    '|' !in s
  }

  /** A text determines what stands before its first bar... */
  lemma SplitFirstBar(a: string, b: string, c: string, d: string)
    requires BarFree(a) && BarFree(c) && a + "|" + b == c + "|" + d
    ensures a == c && b == d
  {
    var s := a + "|" + b;
    assert s[|a|] == '|' && s[|c|] == '|';
    assert a == s[..|a|] && c == s[..|c|];
    assert |a| == |c|;
    assert b == s[|a| + 1..] && d == s[|c| + 1..];
  }

  /** ...and what stands after its last. */
  lemma SplitLastBar(a: string, b: string, c: string, d: string)
    requires BarFree(b) && BarFree(d) && a + "|" + b == c + "|" + d
    ensures b == d
  {
    var s := a + "|" + b;
    assert s[|a|] == '|' && s[|c|] == '|';
    assert b == s[|a| + 1..] && d == s[|c| + 1..];
    assert |a| >= |c|;
    assert |a| <= |c|;
  }
}
