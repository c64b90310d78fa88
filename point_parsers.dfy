/**
 * The two permissive point parsers of the K-Means service: one reads the text
 * notation `x1={1,3}, x2={1.5,3.2}`, the other the decoded JSON list a request
 * carries. Neither rejects malformed input; what they cannot read they drop.
 *
 * Python's `float(text)` is the injected `parseFloat`, applied to text that has
 * already been stripped of surrounding whitespace.
 */
module PointParsers {
  import opened Wrappers
  import opened Text
  import opened Json

  type Point = seq<real>

  // ---------------------------------------------------------------------------
  // parse_points_from_string

  /** The loop state of `parse_points_from_string`: the points emitted and the group being read. */
  datatype Scan = Scan(points: seq<Point>, current: Point)

  /** `try: current.append(float(token.strip())) except: pass` */
  function AppendToken(current: Point, token: string, parseFloat: string -> Option<real>): (r: Point)
    ensures r == current || (|r| == |current| + 1 && r[..|current|] == current)
  {
    match parseFloat(Strip(token))
    case Some(x) => current + [x]
    case None => current
  }

  /** `for num_str in tokens:` appending each token that reads as a number, in order. */
  function AppendNumbers(current: Point, tokens: seq<string>, parseFloat: string -> Option<real>): (r: Point)
    ensures |current| <= |r| <= |current| + |tokens| && r[..|current|] == current
    decreases |tokens|
  {
    if |tokens| == 0 then current
    else AppendNumbers(AppendToken(current, tokens[0], parseFloat), tokens[1..], parseFloat)
  }

  /** The number text of a part that opens a group: after the first `{`, stripped, and cut at a `}`. */
  function OpenedText(part: string): string
    requires '{' in part
  {
    var numbers := Strip(Split(part, '{')[1]);
    if '}' in numbers then Split(numbers, '}')[0] else numbers
  }

  /** The number text of a part that closes a group: before the first `}`, stripped. */
  function ClosedText(part: string): string
  {
    Strip(Split(part, '}')[0])
  }

  /** A comma-part that closes a group without opening one: the only kind that can emit a point. */
  predicate Closes(part: string)
  {
    '{' !in part && '}' in part
  }

  /**
   * One pass of the loop over the comma-parts: a part with `{` starts a fresh group
   * with its numbers; a part with `}` adds its numbers and emits the group if it is
   * non-empty; any other part adds itself when it reads as a number.
   */
  function ScanPart(st: Scan, part: string, parseFloat: string -> Option<real>): (r: Scan)
    ensures r.points == st.points
         || (Closes(part) && |r.points| == |st.points| + 1 && r.points[..|st.points|] == st.points
             && |r.points[|st.points|]| > 0)
  {
    if '{' in part then
      Scan(st.points, AppendNumbers([], Split(OpenedText(part), ','), parseFloat))
    else if '}' in part then
      var current := AppendNumbers(st.current, Split(ClosedText(part), ','), parseFloat);
      if |current| > 0 then Scan(st.points + [current], []) else Scan(st.points, current)
    else
      Scan(st.points, AppendToken(st.current, part, parseFloat))
  }

  /** The loop state after the given comma-parts, from no points and an empty group. */
  function ScanParts(parts: seq<string>, parseFloat: string -> Option<real>): Scan
    decreases |parts|
  {
    if |parts| == 0 then Scan([], [])
    else ScanPart(ScanParts(parts[..|parts| - 1], parseFloat), parts[|parts| - 1], parseFloat)
  }

  /** `parse_points_from_string`: the points the loop over the comma-parts emits. */
  function ParseString(s: string, parseFloat: string -> Option<real>): seq<Point>
  {
    ScanParts(Split(s, ','), parseFloat).points
  }

  /** The number of comma-parts that close a group without opening one. */
  function ClosingParts(parts: seq<string>): nat
    decreases |parts|
  {
    if |parts| == 0 then 0
    else ClosingParts(parts[..|parts| - 1]) + (if Closes(parts[|parts| - 1]) then 1 else 0)
  }

  /** Every emitted point has a coordinate, and no more points are emitted than there are closing parts. */
  lemma {:induction false} ScanPartsEmitted(parts: seq<string>, parseFloat: string -> Option<real>)
    ensures var points := ScanParts(parts, parseFloat).points;
      |points| <= ClosingParts(parts) && forall i :: 0 <= i < |points| ==> |points[i]| > 0
    decreases |parts|
  {
    if |parts| > 0 {
      var n := |parts| - 1;
      ScanPartsEmitted(parts[..n], parseFloat);
      var st := ScanParts(parts[..n], parseFloat);
      assert ScanParts(parts, parseFloat) == ScanPart(st, parts[n], parseFloat);
    }
  }

  /** `parse_points_from_string` never emits an empty point, and emits at most one per closing part. */
  lemma ParsedPointsAreClosedGroups(s: string, parseFloat: string -> Option<real>)
    ensures var points := ParseString(s, parseFloat);
      |points| <= ClosingParts(Split(s, ',')) && forall i :: 0 <= i < |points| ==> |points[i]| > 0
  {
    ScanPartsEmitted(Split(s, ','), parseFloat);
  }

  /**
   * Parts that do not close a group emit nothing: a group still open at the end of the
   * text is dropped, and so is one opened and closed inside a single part.
   */
  lemma {:induction false} NoCloseNoEmit(parts: seq<string>, m: nat, parseFloat: string -> Option<real>)
    requires m <= |parts| && forall i :: m <= i < |parts| ==> !Closes(parts[i])
    ensures ScanParts(parts, parseFloat).points == ScanParts(parts[..m], parseFloat).points
    decreases |parts|
  {
    if m < |parts| {
      var n := |parts| - 1;
      assert parts[..n][..m] == parts[..m];
      NoCloseNoEmit(parts[..n], m, parseFloat);
      NonClosingKeepsPoints(ScanParts(parts[..n], parseFloat), parts[n], parseFloat);
    } else {
      assert parts[..m] == parts;
    }
  }

  /** A part that does not close a group leaves the emitted points as they were. */
  lemma NonClosingKeepsPoints(st: Scan, part: string, parseFloat: string -> Option<real>)
    requires !Closes(part)
    ensures ScanPart(st, part, parseFloat).points == st.points
  {
  }

  /** A part with no brace whose text is not a number leaves the loop state as it was. */
  lemma UnparseablePartSkipped(st: Scan, part: string, parseFloat: string -> Option<real>)
    requires '{' !in part && '}' !in part && parseFloat(Strip(part)).None?
    ensures ScanPart(st, part, parseFloat) == st
  {
  }

  /** Within a group, a token that is not a number is skipped and the rest are kept in order. */
  lemma {:induction false} UnparseableTokensSkipped(current: Point, tokens: seq<string>,
                                                    parseFloat: string -> Option<real>)
    requires forall i :: 0 <= i < |tokens| ==> parseFloat(Strip(tokens[i])).None?
    ensures AppendNumbers(current, tokens, parseFloat) == current
    decreases |tokens|
  {
    if |tokens| > 0 {
      UnparseableTokensSkipped(current, tokens[1..], parseFloat);
    }
  }

  /** Text without commas that opens a group, such as `{5}`, yields no point. */
  lemma SingleGroupPartNotEmitted(s: string, parseFloat: string -> Option<real>)
    requires ',' !in s && '{' in s
    ensures ParseString(s, parseFloat) == []
  {
    SplitWithoutSeparator(s, ',');
    NoCloseNoEmit([s], 0, parseFloat);
  }

  /** The documented example: `x1={1,3}, x2={1.5,3.2}` reads as the points (1, 3) and (1.5, 3.2). */
  lemma DocumentedExample(s: string, parseFloat: string -> Option<real>)
    requires s == "x1={1,3}, x2={1.5,3.2}"
    requires parseFloat("1") == Some(1.0) && parseFloat("3") == Some(3.0)
    requires parseFloat("1.5") == Some(1.5) && parseFloat("3.2") == Some(3.2)
    ensures ParseString(s, parseFloat) == [[1.0, 3.0], [1.5, 3.2]]
  {
    var parts := ["x1={1", "3}", " x2={1.5", "3.2}"];
    ExampleParts(s, parts);
    ExampleScan(parts, parseFloat);
  }

  /** The comma-parts of the documented example scan to its two points. */
  lemma ExampleScan(parts: seq<string>, parseFloat: string -> Option<real>)
    requires parts == ["x1={1", "3}", " x2={1.5", "3.2}"]
    requires parseFloat("1") == Some(1.0) && parseFloat("3") == Some(3.0)
    requires parseFloat("1.5") == Some(1.5) && parseFloat("3.2") == Some(3.2)
    ensures ScanParts(parts, parseFloat).points == [[1.0, 3.0], [1.5, 3.2]]
  {
    ExampleShapes(parts, parseFloat);
    TwoGroups(parts, "x1=", "1", "3", " x2=", "1.5", "3.2", parseFloat, 1.0, 3.0, 1.5, 3.2, ScanParts(parts, parseFloat));
  }

  /** The comma-parts of the documented example. */
  lemma ExampleParts(s: string, parts: seq<string>)
    requires s == "x1={1,3}, x2={1.5,3.2}"
    requires parts == ["x1={1", "3}", " x2={1.5", "3.2}"]
    ensures Split(s, ',') == parts
  {
    assert parts[1..][1..][1..] == ["3.2}"];
    assert Join(parts[1..][1..], ',') == " x2={1.5,3.2}";
    assert Join(parts[1..], ',') == "3}, x2={1.5,3.2}";
    assert Join(parts, ',') == s;
    SplitJoin(parts, ',');
  }

  /** The documented example's parts have the shape `a{x0`, `x1}`, `b{x2`, `x3}`. */
  lemma ExampleShapes(parts: seq<string>, parseFloat: string -> Option<real>)
    requires parts == ["x1={1", "3}", " x2={1.5", "3.2}"]
    requires parseFloat("1") == Some(1.0) && parseFloat("3") == Some(3.0)
    requires parseFloat("1.5") == Some(1.5) && parseFloat("3.2") == Some(3.2)
    ensures parts[0] == "x1=" + "{" + "1" && parts[1] == "3" + "}"
    ensures parts[2] == " x2=" + "{" + "1.5" && parts[3] == "3.2" + "}"
    ensures NumberText("1", parseFloat, 1.0) && NumberText("3", parseFloat, 3.0)
    ensures NumberText("1.5", parseFloat, 1.5) && NumberText("3.2", parseFloat, 3.2)
  {
    assert parts[0] == "x1=" + "{" + "1";
    assert parts[2] == " x2=" + "{" + "1.5";
  }

  /** A number's text as it stands between braces and commas, and the value it reads as. */
  predicate NumberText(number: string, parseFloat: string -> Option<real>, x: real)
  {
    && '{' !in number && '}' !in number && ',' !in number
    && |number| > 0 && !IsSpace(number[0]) && !IsSpace(number[|number| - 1])
    && parseFloat(number) == Some(x)
  }

  /** The parts `a{x0`, `x1}`, `b{x2`, `x3}` read as the two points (x0, x1) and (x2, x3). */
  lemma TwoGroups(parts: seq<string>, a: string, n0: string, n1: string, b: string, n2: string, n3: string,
                  parseFloat: string -> Option<real>, x0: real, x1: real, x2: real, x3: real, r: Scan)
    requires |parts| == 4 && '{' !in a && '{' !in b
    requires parts[0] == a + "{" + n0 && parts[1] == n1 + "}" && parts[2] == b + "{" + n2 && parts[3] == n3 + "}"
    requires NumberText(n0, parseFloat, x0) && NumberText(n1, parseFloat, x1)
    requires NumberText(n2, parseFloat, x2) && NumberText(n3, parseFloat, x3)
    requires r == ScanParts(parts, parseFloat)
    ensures r.points == [[x0, x1], [x2, x3]]
  {
    assert parts[..0] == [];
    OpensAt(parts, 0, Scan([], []), a, n0, parseFloat, x0);
    ClosesAt(parts, 1, Scan([], [x0]), n1, parseFloat, x1);
    TwoPoints(x0, x1, x2, x3);
    OpensAt(parts, 2, Scan([[x0, x1]], []), b, n2, parseFloat, x2);
    ClosesAt(parts, 3, Scan([[x0, x1]], [x2]), n3, parseFloat, x3);
    TakeAll(parts);
  }

  lemma TwoPoints(x0: real, x1: real, x2: real, x3: real)
    ensures [] + [[x0] + [x1]] == [[x0, x1]]
    ensures [[x0, x1]] + [[x2] + [x3]] == [[x0, x1], [x2, x3]]
  {
    assert [x0] + [x1] == [x0, x1] && [x2] + [x3] == [x2, x3];
  }

  lemma TakeAll(parts: seq<string>)
    ensures parts[..|parts|] == parts
  {
  }

  /** After the parts before `i`, a part `<prefix>{<number>` starts a group holding just that number. */
  lemma OpensAt(parts: seq<string>, i: nat, before: Scan, prefix: string, number: string,
                parseFloat: string -> Option<real>, x: real)
    requires i < |parts| && ScanParts(parts[..i], parseFloat) == before
    requires parts[i] == prefix + "{" + number && '{' !in prefix && NumberText(number, parseFloat, x)
    ensures ScanParts(parts[..i + 1], parseFloat) == Scan(before.points, [x])
  {
    assert parts[..i + 1][..i] == parts[..i];
    OpensWith(before, parts[i], prefix, number, parseFloat, x);
  }

  /** After the parts before `i`, a part `<number>}` adds that number to the group and emits it. */
  lemma ClosesAt(parts: seq<string>, i: nat, before: Scan, number: string, parseFloat: string -> Option<real>, x: real)
    requires i < |parts| && ScanParts(parts[..i], parseFloat) == before
    requires parts[i] == number + "}" && NumberText(number, parseFloat, x)
    ensures ScanParts(parts[..i + 1], parseFloat) == Scan(before.points + [before.current + [x]], [])
  {
    assert parts[..i + 1][..i] == parts[..i];
    ClosesWith(before, parts[i], number, parseFloat, x);
  }

  /** Text with no whitespace at either end is its own `strip()`. */
  lemma StripUnchanged(s: string)
    requires |s| > 0 && !IsSpace(s[0]) && !IsSpace(s[|s| - 1])
    ensures Strip(s) == s
  {
  }

  /** The part `<prefix>{<number>` starts a group holding just that number. */
  lemma OpensWith(st: Scan, part: string, prefix: string, number: string, parseFloat: string -> Option<real>, x: real)
    requires part == prefix + "{" + number && '{' !in prefix && NumberText(number, parseFloat, x)
    ensures ScanPart(st, part, parseFloat) == Scan(st.points, [x])
  {
    StripUnchanged(number);
    assert part == prefix + ['{'] + number;
    assert '{' in part;
    SplitAfterPiece(prefix, '{', number);
    SplitWithoutSeparator(number, '{');
    SplitWithoutSeparator(number, ',');
    assert OpenedText(part) == number;
    assert AppendNumbers([], [number], parseFloat) == [x];
  }

  /** The part `<number>}` adds that number to the group and emits it. */
  lemma ClosesWith(st: Scan, part: string, number: string, parseFloat: string -> Option<real>, x: real)
    requires part == number + "}" && NumberText(number, parseFloat, x)
    ensures ScanPart(st, part, parseFloat) == Scan(st.points + [st.current + [x]], [])
  {
    StripUnchanged(number);
    assert part == number + ['}'] + "";
    assert '{' !in part && '}' in part;
    SplitAfterPiece(number, '}', "");
    SplitWithoutSeparator(number, ',');
    assert ClosedText(part) == number;
    assert AppendNumbers(st.current, [number], parseFloat) == st.current + [x];
  }

  /** `for num_str in tokens:` as the loop that appends each token reading as a number. */
  method AppendParsed(current: Point, tokens: seq<string>, parseFloat: string -> Option<real>) returns (r: Point)
    ensures r == AppendNumbers(current, tokens, parseFloat)
  {
    r := current;
    for i := 0 to |tokens|
      invariant AppendNumbers(r, tokens[i..], parseFloat) == AppendNumbers(current, tokens, parseFloat)
    {
      assert tokens[i..][1..] == tokens[i + 1..];
      var parsed := parseFloat(Strip(tokens[i]));
      if parsed.Some? {
        r := r + [parsed.value];
      }
    }
  }

  /** `parse_points_from_string`: the loop over the comma-parts with its group buffer. */
  method ParsePointsFromString(s: string, parseFloat: string -> Option<real>) returns (points: seq<Point>)
    ensures points == ParseString(s, parseFloat)
  {
    var parts := Split(s, ',');
    points := [];
    var current: Point := [];
    for i := 0 to |parts|
      invariant Scan(points, current) == ScanParts(parts[..i], parseFloat)
    {
      assert parts[..i + 1][..i] == parts[..i];
      var part := parts[i];
      if '{' in part {
        current := AppendParsed([], Split(OpenedText(part), ','), parseFloat);
      } else if '}' in part {
        current := AppendParsed(current, Split(ClosedText(part), ','), parseFloat);
        if |current| > 0 {
          points := points + [current];
          current := [];
        }
      } else {
        var parsed := parseFloat(Strip(part));
        if parsed.Some? {
          current := current + [parsed.value];
        }
      }
    }
    assert parts[..|parts|] == parts;
  }

  // ---------------------------------------------------------------------------
  // parse_points_from_list

  /**
   * `[float(v) for v in vs if isinstance(v, (int, float))]`, in order; the first number
   * `float` cannot convert raises.
   */
  function NumericValues(vs: seq<JsonValue>, parseFloat: string -> Option<real>): (r: Result<Point, PyError>)
    ensures r.Success? ==> |r.value| <= |vs|
    ensures r.Failure? ==> r.error == OverflowError
    decreases |vs|
  {
    if |vs| == 0 then Success([])
    else
      var n := |vs| - 1;
      var before := NumericValues(vs[..n], parseFloat);
      if before.Failure? || !IsNumber(vs[n]) then before
      else
        var x := FloatOf(vs[n], parseFloat);
        if x.Failure? then Failure(x.error) else Success(before.value + [x.value])
  }

  /** The comprehension raises exactly when one of the numbers is out of the float range. */
  lemma {:induction false} NumericValuesFails(vs: seq<JsonValue>, parseFloat: string -> Option<real>)
    ensures NumericValues(vs, parseFloat).Failure? <==>
      exists i :: 0 <= i < |vs| && vs[i].JInt? && !(-FloatOverflowBound < vs[i].i < FloatOverflowBound)
    decreases |vs|
  {
    if |vs| > 0 {
      var n := |vs| - 1;
      NumericValuesFails(vs[..n], parseFloat);
      if exists i :: 0 <= i < n && vs[..n][i].JInt? && !(-FloatOverflowBound < vs[..n][i].i < FloatOverflowBound) {
        var i :| 0 <= i < n && vs[..n][i].JInt? && !(-FloatOverflowBound < vs[..n][i].i < FloatOverflowBound);
        assert vs[i] == vs[..n][i];
      }
      if exists i :: 0 <= i < |vs| && vs[i].JInt? && !(-FloatOverflowBound < vs[i].i < FloatOverflowBound) {
        var i :| 0 <= i < |vs| && vs[i].JInt? && !(-FloatOverflowBound < vs[i].i < FloatOverflowBound);
        if i < n {
          assert vs[..n][i] == vs[i];
        }
      }
    }
  }

  /** A list of numbers that all convert keeps every entry, each as its float. */
  lemma {:induction false} NumericValuesOfNumbers(vs: seq<JsonValue>, parseFloat: string -> Option<real>)
    requires forall i :: 0 <= i < |vs| ==> IsNumber(vs[i]) && FloatOf(vs[i], parseFloat).Success?
    ensures var r := NumericValues(vs, parseFloat);
      r.Success? && |r.value| == |vs| && forall i :: 0 <= i < |vs| ==> Success(r.value[i]) == FloatOf(vs[i], parseFloat)
    decreases |vs|
  {
    if |vs| > 0 {
      NumericValuesOfNumbers(vs[..|vs| - 1], parseFloat);
    }
  }

  /** A list with no number among its entries yields nothing. */
  lemma {:induction false} NumericValuesOfNonNumbers(vs: seq<JsonValue>, parseFloat: string -> Option<real>)
    requires forall i :: 0 <= i < |vs| ==> !IsNumber(vs[i])
    ensures NumericValues(vs, parseFloat) == Success([])
    decreases |vs|
  {
    if |vs| > 0 {
      NumericValuesOfNonNumbers(vs[..|vs| - 1], parseFloat);
    }
  }

  /** Members in strictly ascending key order. */
  predicate SortedByKey(ms: seq<(string, JsonValue)>)
  {
    forall i, j :: 0 <= i < j < |ms| ==> LexLess(ms[i].0, ms[j].0)
  }

  /** Insertion of one member before the first member with a larger key. */
  function InsertMember(m: (string, JsonValue), sorted: seq<(string, JsonValue)>): (r: seq<(string, JsonValue)>)
    ensures multiset(r) == multiset(sorted) + multiset{m}
    decreases |sorted|
  {
    if |sorted| == 0 || LexLess(m.0, sorted[0].0) then [m] + sorted
    else
      assert sorted == [sorted[0]] + sorted[1..];
      [sorted[0]] + InsertMember(m, sorted[1..])
  }

  /** `sorted(item.items())`: the members by key, keys of a dictionary being distinct. */
  function SortMembers(ms: seq<(string, JsonValue)>): (r: seq<(string, JsonValue)>)
    ensures multiset(r) == multiset(ms)
    decreases |ms|
  {
    if |ms| == 0 then []
    else
      assert ms == [ms[0]] + ms[1..];
      InsertMember(ms[0], SortMembers(ms[1..]))
  }

  /** Inserting a member whose key is new keeps the order strict. */
  lemma {:induction false} InsertMemberSorted(m: (string, JsonValue), sorted: seq<(string, JsonValue)>)
    requires SortedByKey(sorted) && forall i :: 0 <= i < |sorted| ==> sorted[i].0 != m.0
    ensures SortedByKey(InsertMember(m, sorted))
    decreases |sorted|
  {
    if |sorted| > 0 && !LexLess(m.0, sorted[0].0) {
      LexLessTotal(m.0, sorted[0].0);
      InsertMemberSorted(m, sorted[1..]);
      var r := InsertMember(m, sorted[1..]);
      forall j | 0 <= j < |r|
        ensures LexLess(sorted[0].0, r[j].0)
      {
        assert r[j] in multiset(r);
        assert r[j] in multiset(sorted[1..]) + multiset{m};
        if r[j] != m {
          var t :| 0 <= t < |sorted[1..]| && sorted[1..][t] == r[j];
          assert sorted[t + 1] == r[j];
        }
      }
    } else if |sorted| > 0 {
      forall j | 0 < j < |sorted|
        ensures LexLess(m.0, sorted[j].0)
      {
        LexLessTransitive(m.0, sorted[0].0, sorted[j].0);
      }
    }
  }

  /** The key of a member of `ms` occurs in `ms`. */
  lemma KeyOfMember(ms: seq<(string, JsonValue)>, m: (string, JsonValue))
    requires m in multiset(ms)
    ensures exists i :: 0 <= i < |ms| && ms[i] == m
  {
    assert m in ms;
  }

  /** Sorting members with distinct keys puts them in strictly ascending key order. */
  lemma {:induction false} SortMembersSorted(ms: seq<(string, JsonValue)>)
    requires DistinctKeys(ms)
    ensures SortedByKey(SortMembers(ms))
    decreases |ms|
  {
    if |ms| > 0 {
      var rest := SortMembers(ms[1..]);
      SortMembersSorted(ms[1..]);
      forall i | 0 <= i < |rest|
        ensures rest[i].0 != ms[0].0
      {
        assert rest[i] in multiset(rest);
        KeyOfMember(ms[1..], rest[i]);
        var t :| 0 <= t < |ms[1..]| && ms[1..][t] == rest[i];
        assert ms[t + 1] == rest[i];
      }
      InsertMemberSorted(ms[0], rest);
    }
  }

  /** Two member lists in strictly ascending key order holding the same members are the same list. */
  lemma {:induction false} SortedUnique(a: seq<(string, JsonValue)>, b: seq<(string, JsonValue)>)
    requires SortedByKey(a) && SortedByKey(b) && multiset(a) == multiset(b)
    ensures a == b
    decreases |a|
  {
    if |a| > 0 {
      SortedSameHead(a, b);
      SameTail(a, b);
      SortedUnique(a[1..], b[1..]);
      assert a == [a[0]] + a[1..] && b == [b[0]] + b[1..];
    } else {
      assert |b| == 0;
    }
  }

  /** Sorted lists with the same members start with the same member (the least key). */
  lemma SortedSameHead(a: seq<(string, JsonValue)>, b: seq<(string, JsonValue)>)
    requires SortedByKey(a) && SortedByKey(b) && multiset(a) == multiset(b) && |a| > 0
    ensures |b| > 0 && a[0] == b[0]
  {
    assert a[0] in multiset(b);
    assert b[0] in multiset(a);
    if a[0] != b[0] {
      var i :| 0 <= i < |a| && a[i] == b[0];
      var j :| 0 <= j < |b| && b[j] == a[0];
      LexLessTransitive(a[0].0, b[0].0, a[0].0);
      LexLessIrreflexive(a[0].0);
      assert false;
    }
  }

  /** Lists with the same members and the same first member have tails with the same members. */
  lemma SameTail(a: seq<(string, JsonValue)>, b: seq<(string, JsonValue)>)
    requires |a| > 0 && |b| > 0 && a[0] == b[0] && multiset(a) == multiset(b)
    ensures multiset(a[1..]) == multiset(b[1..])
  {
    assert a == [a[0]] + a[1..] && b == [b[0]] + b[1..];
    assert multiset(a) == multiset{a[0]} + multiset(a[1..]);
    assert multiset(b) == multiset{a[0]} + multiset(b[1..]);
    assert multiset(a[1..]) == multiset(a) - multiset{a[0]};
    assert multiset(b[1..]) == multiset(b) - multiset{a[0]};
  }

  /** The values of members, in their order. */
  function ValuesOf(ms: seq<(string, JsonValue)>): (vs: seq<JsonValue>)
    ensures |vs| == |ms| && forall i :: 0 <= i < |ms| ==> vs[i] == ms[i].1
  {
    seq(|ms|, i requires 0 <= i < |ms| => ms[i].1)
  }

  /** The point `(float(x), float(y))`, converting `x` first. */
  function XYPoint(x: JsonValue, y: JsonValue, parseFloat: string -> Option<real>): (r: Result<Point, PyError>)
    ensures r.Success? <==> FloatOf(x, parseFloat).Success? && FloatOf(y, parseFloat).Success?
    ensures r.Success? ==> r.value == [FloatOf(x, parseFloat).value, FloatOf(y, parseFloat).value]
    ensures FloatOf(x, parseFloat).Failure? ==> r == Failure(FloatOf(x, parseFloat).error)
  {
    var fx := FloatOf(x, parseFloat);
    if fx.Failure? then Failure(fx.error)
    else
      var fy := FloatOf(y, parseFloat);
      if fy.Failure? then Failure(fy.error) else Success([fx.value, fy.value])
  }

  /** The point of an object: its `x` and `y` when it has both, else its dict's numeric values by key. */
  function ObjectPoint(ms: seq<(string, JsonValue)>, parseFloat: string -> Option<real>): Result<Point, PyError>
  {
    if HasKey(ms, "x") && HasKey(ms, "y") then XYPoint(Get(ms, "x").value, Get(ms, "y").value, parseFloat)
    else NumericValues(ValuesOf(SortMembers(DictOf(ms))), parseFloat)
  }

  /**
   * The point one item of the list yields, or what `float` raises on it. An object with
   * both `x` and `y` gives those two, in that order; any other object gives the numeric
   * values of its dict by ascending key; a list gives its numeric entries; anything else
   * gives none.
   */
  function ItemPoint(item: JsonValue, parseFloat: string -> Option<real>): (r: Result<Point, PyError>)
    ensures item.JArray? ==> r == NumericValues(item.items, parseFloat)
    ensures !item.JArray? && !item.JObject? ==> r == Success([])
  {
    match item
    case JObject(ms) => ObjectPoint(ms, parseFloat)
    case JArray(xs) => NumericValues(xs, parseFloat)
    case _ => Success([])
  }

  /** `parse_points_from_list`: the non-empty item points in item order, or the first error raised. */
  function ParseList(items: seq<JsonValue>, parseFloat: string -> Option<real>): Result<seq<Point>, PyError>
    decreases |items|
  {
    if |items| == 0 then Success([])
    else
      var n := |items| - 1;
      var before := ParseList(items[..n], parseFloat);
      if before.Failure? then before
      else
        var point := ItemPoint(items[n], parseFloat);
        if point.Failure? then Failure(point.error)
        else if |point.value| > 0 then Success(before.value + [point.value])
        else before
  }

  /** Once an item raises, the items after it are never looked at. */
  lemma FailureSticks(items: seq<JsonValue>, j: nat, parseFloat: string -> Option<real>)
    requires j <= |items| && ParseList(items[..j], parseFloat).Failure?
    ensures ParseList(items, parseFloat) == ParseList(items[..j], parseFloat)
  {
    FailureSticksUpTo(items, j, |items|, parseFloat);
    assert items[..|items|] == items;
  }

  /** A failure in the first `j` items is the result for every longer prefix. */
  lemma {:induction false} FailureSticksUpTo(items: seq<JsonValue>, j: nat, k: nat, parseFloat: string -> Option<real>)
    requires j <= k <= |items| && ParseList(items[..j], parseFloat).Failure?
    ensures ParseList(items[..k], parseFloat) == ParseList(items[..j], parseFloat)
    decreases k
  {
    if j < k {
      FailureSticksUpTo(items, j, k - 1, parseFloat);
      assert items[..k][..k - 1] == items[..k - 1];
      FailedPrefixFails(items[..k], parseFloat);
    }
  }

  /** A failure before the last item is the failure of the whole list. */
  lemma FailedPrefixFails(items: seq<JsonValue>, parseFloat: string -> Option<real>)
    requires |items| > 0 && ParseList(items[..|items| - 1], parseFloat).Failure?
    ensures ParseList(items, parseFloat) == ParseList(items[..|items| - 1], parseFloat)
  {
  }

  /** At most one point per item, never an empty one. */
  lemma {:induction false} ParseListBounds(items: seq<JsonValue>, parseFloat: string -> Option<real>)
    ensures var r := ParseList(items, parseFloat);
      r.Success? ==> |r.value| <= |items| && forall i :: 0 <= i < |r.value| ==> |r.value[i]| > 0
    decreases |items|
  {
    if |items| > 0 {
      ParseListBounds(items[..|items| - 1], parseFloat);
    }
  }

  /** The parse fails exactly when some item raises. */
  lemma ParseListFails(items: seq<JsonValue>, parseFloat: string -> Option<real>)
    ensures ParseList(items, parseFloat).Failure? <==> exists i :: 0 <= i < |items| && ItemPoint(items[i], parseFloat).Failure?
  {
    if ParseList(items, parseFloat).Failure? {
      var i := FailingItem(items, parseFloat);
    }
    forall i | 0 <= i < |items| && ItemPoint(items[i], parseFloat).Failure?
      ensures ParseList(items, parseFloat).Failure?
    {
      FailingItemFails(items, i, parseFloat);
    }
  }

  /** A failed parse names an item that raised. */
  lemma {:induction false} FailingItem(items: seq<JsonValue>, parseFloat: string -> Option<real>) returns (i: nat)
    requires ParseList(items, parseFloat).Failure?
    ensures i < |items| && ItemPoint(items[i], parseFloat).Failure?
    decreases |items|
  {
    var n := |items| - 1;
    if ParseList(items[..n], parseFloat).Failure? {
      i := FailingItem(items[..n], parseFloat);
      assert items[..n][i] == items[i];
    } else {
      i := n;
    }
  }

  /** An item that raises makes the whole parse fail. */
  lemma FailingItemFails(items: seq<JsonValue>, i: nat, parseFloat: string -> Option<real>)
    requires i < |items| && ItemPoint(items[i], parseFloat).Failure?
    ensures ParseList(items, parseFloat).Failure?
  {
    assert items[..i + 1][..i] == items[..i];
    assert items[..i + 1][i] == items[i];
    assert ParseList(items[..i + 1], parseFloat).Failure?;
    FailureSticks(items, i + 1, parseFloat);
  }

  /** Points come out in item order: parsing two lists one after the other is parsing their concatenation. */
  lemma {:induction false} ParseListAppend(a: seq<JsonValue>, b: seq<JsonValue>, parseFloat: string -> Option<real>)
    requires ParseList(a + b, parseFloat).Success?
    ensures ParseList(a, parseFloat).Success? && ParseList(b, parseFloat).Success?
    ensures ParseList(a + b, parseFloat).value == ParseList(a, parseFloat).value + ParseList(b, parseFloat).value
    decreases |b|
  {
    if |b| == 0 {
      assert a + b == a;
    } else {
      var n := |b| - 1;
      assert (a + b)[..|a + b| - 1] == a + b[..n];
      assert (a + b)[|a + b| - 1] == b[n];
      ParseListAppend(a, b[..n], parseFloat);
    }
  }

  /** An object with `x` and `y` yields exactly those two, whatever other keys it has. */
  lemma XYIgnoresOtherKeys(ms: seq<(string, JsonValue)>, ns: seq<(string, JsonValue)>, parseFloat: string -> Option<real>)
    requires HasKey(ms, "x") && HasKey(ms, "y")
    requires Get(ms, "x") == Get(ns, "x") && Get(ms, "y") == Get(ns, "y")
    ensures ItemPoint(JObject(ms), parseFloat) == ItemPoint(JObject(ns), parseFloat)
    ensures var r := ItemPoint(JObject(ms), parseFloat);
      r.Success? ==> (|r.value| == 2
        && Success(r.value[0]) == FloatOf(Get(ms, "x").value, parseFloat)
        && Success(r.value[1]) == FloatOf(Get(ms, "y").value, parseFloat))
  {
  }

  /** A non-numeric `x` (or, when `x` reads, `y`) makes the item raise instead of being skipped. */
  lemma XYRaises(ms: seq<(string, JsonValue)>, parseFloat: string -> Option<real>)
    requires HasKey(ms, "x") && HasKey(ms, "y")
    requires FloatOf(Get(ms, "x").value, parseFloat).Failure?
          || FloatOf(Get(ms, "y").value, parseFloat).Failure?
    ensures ItemPoint(JObject(ms), parseFloat).Failure?
    ensures var x := FloatOf(Get(ms, "x").value, parseFloat);
      ItemPoint(JObject(ms), parseFloat).error
        == if x.Failure? then x.error else FloatOf(Get(ms, "y").value, parseFloat).error
  {
  }

  /** Lists holding the same members have the same keys. */
  lemma HasKeyOfSameMembers(ms: seq<(string, JsonValue)>, ns: seq<(string, JsonValue)>, key: string)
    requires multiset(ms) == multiset(ns)
    ensures HasKey(ms, key) <==> HasKey(ns, key)
  {
    if HasKey(ms, key) {
      var i :| 0 <= i < |ms| && ms[i].0 == key;
      assert ms[i] in multiset(ns);
      var j :| 0 <= j < |ns| && ns[j] == ms[i];
    }
    if HasKey(ns, key) {
      var j :| 0 <= j < |ns| && ns[j].0 == key;
      assert ns[j] in multiset(ms);
      var i :| 0 <= i < |ms| && ms[i] == ns[j];
    }
  }

  /** Key-distinct lists holding the same members carry the same value under each key. */
  lemma GetOfSameMembers(ms: seq<(string, JsonValue)>, ns: seq<(string, JsonValue)>, key: string)
    requires DistinctKeys(ms) && DistinctKeys(ns) && multiset(ms) == multiset(ns)
    ensures Get(ms, key) == Get(ns, key)
  {
    HasKeyOfSameMembers(ms, ns, key);
    var a := Get(ms, key);
    var b := Get(ns, key);
    if a.Some? {
      var i :| LastWith(ms, key, i) && ms[i].1 == a.value;
      assert ms[i] in multiset(ns);
      var j :| 0 <= j < |ns| && ns[j] == ms[i];
      var j' :| LastWith(ns, key, j') && ns[j'].1 == b.value;
      assert j == j';
    }
  }

  /**
   * An object's point depends only on the dict it decodes to, not on the order its
   * members were written in.
   */
  lemma ItemPointIgnoresMemberOrder(ms: seq<(string, JsonValue)>, ns: seq<(string, JsonValue)>,
                                    parseFloat: string -> Option<real>)
    requires multiset(DictOf(ms)) == multiset(DictOf(ns))
    ensures ItemPoint(JObject(ms), parseFloat) == ItemPoint(JObject(ns), parseFloat)
  {
    var d, e := DictOf(ms), DictOf(ns);
    assert SortMembers(d) == SortMembers(e) by {
      SortMembersSorted(d);
      SortMembersSorted(e);
      SortedUnique(SortMembers(d), SortMembers(e));
    }
    assert HasKey(ms, "x") == HasKey(ns, "x") && HasKey(ms, "y") == HasKey(ns, "y") by {
      HasKeyOfSameMembers(d, e, "x");
      HasKeyOfSameMembers(d, e, "y");
    }
    assert Get(ms, "x") == Get(ns, "x") && Get(ms, "y") == Get(ns, "y") by {
      GetOfSameMembers(d, e, "x");
      GetOfSameMembers(d, e, "y");
    }
    SameObjectPoint(ms, ns, parseFloat);
  }

  /** Two member lists that agree on `x`, `y` and their dict's key-sorted order give the same point. */
  lemma SameObjectPoint(ms: seq<(string, JsonValue)>, ns: seq<(string, JsonValue)>,
                        parseFloat: string -> Option<real>)
    requires SortMembers(DictOf(ms)) == SortMembers(DictOf(ns))
    requires HasKey(ms, "x") == HasKey(ns, "x") && HasKey(ms, "y") == HasKey(ns, "y")
    requires Get(ms, "x") == Get(ns, "x") && Get(ms, "y") == Get(ns, "y")
    ensures ItemPoint(JObject(ms), parseFloat) == ItemPoint(JObject(ns), parseFloat)
  {
  }

  /**
   * With no `x`/`y` pair an object gives the numeric values of its dict in strictly
   * ascending key order, one per key.
   */
  lemma ObjectPointInKeyOrder(ms: seq<(string, JsonValue)>, parseFloat: string -> Option<real>)
    requires !(HasKey(ms, "x") && HasKey(ms, "y"))
    ensures var sorted := SortMembers(DictOf(ms));
      && SortedByKey(sorted) && multiset(sorted) == multiset(DictOf(ms))
      && ItemPoint(JObject(ms), parseFloat) == NumericValues(ValuesOf(sorted), parseFloat)
  {
    SortMembersSorted(DictOf(ms));
  }

  /** `parse_points_from_list`: the loop over the items, appending each non-empty point. */
  method ParsePointsFromList(items: seq<JsonValue>, parseFloat: string -> Option<real>)
    returns (r: Result<seq<Point>, PyError>)
    ensures r == ParseList(items, parseFloat)
  {
    var points: seq<Point> := [];
    for i := 0 to |items|
      invariant ParseList(items[..i], parseFloat) == Success(points)
    {
      assert items[..i + 1][..i] == items[..i];
      var point := ItemPoint(items[i], parseFloat);
      if point.Failure? {
        assert ParseList(items[..i + 1], parseFloat) == Failure(point.error);
        FailureSticks(items, i + 1, parseFloat);
        return Failure(point.error);
      }
      if |point.value| > 0 {
        points := points + [point.value];
      }
    }
    assert items[..|items|] == items;
    r := Success(points);
  }
}
