/**
  Comma-separated lists as the portfolio tracker stores them: industry
  classifications and investment types are saved as the ", "-join of the sorted
  selection, and read back by splitting on commas, stripping whitespace from
  each piece and dropping the empty pieces.
 */
module CommaList {
  import opened Options

  /** A character that Python's str.isspace() accepts (and so str.strip() removes). */
  predicate IsSpace(c: char) {
    || ('\t' <= c <= '\r')                // tab, line feed, vertical tab, form feed, carriage return
    || ('\U{1C}' <= c <= '\U{1F}')        // file, group, record and unit separators
    || c == ' '
    || c == '\U{85}' || c == '\U{A0}' || c == '\U{1680}'
    || ('\U{2000}' <= c <= '\U{200A}')
    || c == '\U{2028}' || c == '\U{2029}' || c == '\U{202F}' || c == '\U{205F}' || c == '\U{3000}'
  }

  predicate AllSpace(s: string) {
    forall i :: 0 <= i < |s| ==> IsSpace(s[i])
  }

  /** Neither begins nor ends with whitespace. */
  predicate Stripped(s: string) {
    s == [] || (!IsSpace(s[0]) && !IsSpace(s[|s| - 1]))
  }

  /** A list item as the forms produce it: non-empty, stripped, free of commas. */
  predicate WellFormedItem(s: string) {
    s != [] && Stripped(s) && ',' !in s
  }

  predicate NonEmptyStripped(items: seq<string>) {
    forall k :: 0 <= k < |items| ==> items[k] != [] && Stripped(items[k])
  }

  predicate CommaFree(items: seq<string>) {
    forall k :: 0 <= k < |items| ==> ',' !in items[k]
  }

  /** Every item is well formed. */
  predicate WellFormedItems(items: seq<string>) {
    NonEmptyStripped(items) && CommaFree(items)
  }

  /** str.lstrip(). */
  function TrimStart(s: string): (r: string)
    ensures |r| <= |s|
    ensures r != [] ==> !IsSpace(r[0])
  {
    if s != [] && IsSpace(s[0]) then TrimStart(s[1..]) else s
  }

  /** What lstrip removes is exactly the leading whitespace. */
  lemma {:induction false} TrimStartRemovesLeadingSpace(s: string)
    ensures TrimStart(s) == s[|s| - |TrimStart(s)|..]
    ensures AllSpace(s[..|s| - |TrimStart(s)|])
  {
    if s != [] && IsSpace(s[0]) {
      TrimStartRemovesLeadingSpace(s[1..]);
      var n := |s| - |TrimStart(s)|;
      assert s[..n] == [s[0]] + s[1..][..n - 1];
    }
  }

  /** str.rstrip(). */
  function TrimEnd(s: string): (r: string)
    ensures |r| <= |s|
    ensures r != [] ==> !IsSpace(r[|r| - 1])
  {
    if s != [] && IsSpace(s[|s| - 1]) then TrimEnd(s[..|s| - 1]) else s
  }

  /** What rstrip removes is exactly the trailing whitespace. */
  lemma {:induction false} TrimEndRemovesTrailingSpace(s: string)
    ensures TrimEnd(s) == s[..|TrimEnd(s)|]
    ensures AllSpace(s[|TrimEnd(s)|..])
  {
    if s != [] && IsSpace(s[|s| - 1]) {
      TrimEndRemovesTrailingSpace(s[..|s| - 1]);
      var r := TrimEnd(s);
      assert s[|r|..] == s[..|s| - 1][|r|..] + [s[|s| - 1]];
    }
  }

  /** str.strip(). */
  function Strip(s: string): (r: string)
    ensures Stripped(r)
    ensures |r| <= |s|
    ensures ',' !in s ==> ',' !in r
    ensures r == [] <==> AllSpace(s)
    ensures Stripped(s) ==> r == s
  {
    var t := TrimStart(s);
    var r := TrimEnd(t);
    TrimStartRemovesLeadingSpace(s);
    TrimEndRemovesTrailingSpace(t);
    assert r != [] ==> r[0] == t[0];
    assert forall i :: 0 <= i < |r| ==> r[i] == s[|s| - |t| + i];
    assert ',' in r ==> ',' in s;
    assert r == [] ==> t == [];
    assert s[..|s|] == s;
    r
  }

  /** The number of commas in s. */
  function CommaCount(s: string): nat {
    if s == [] then 0 else (if s[0] == ',' then 1 else 0) + CommaCount(s[1..])
  }

  /** str.split(','): the pieces between commas, empty ones included. */
  function Split(s: string): (r: seq<string>)
    ensures |r| == CommaCount(s) + 1
    ensures CommaFree(r)
  {
    if s == [] then [[]]
    else
      var rest := Split(s[1..]);
      if s[0] == ',' then [[]] + rest
      else [[s[0]] + rest[0]] + rest[1..]
  }

  /** Total number of characters in the parts. */
  function TotalLength(parts: seq<string>): nat {
    if parts == [] then 0 else |parts[0]| + TotalLength(parts[1..])
  }

  /** sep.join(parts): the parts in order with one separator between each two neighbours. */
  function Join(parts: seq<string>, sep: string): (r: string)
    ensures |r| == TotalLength(parts) + (if parts == [] then 0 else (|parts| - 1) * |sep|)
  {
    if |parts| == 0 then ""
    else if |parts| == 1 then parts[0]
    else
      var rest := Join(parts[1..], sep);
      assert (|parts| - 2) * |sep| + |sep| == (|parts| - 1) * |sep|;
      parts[0] + sep + rest
  }

  /** The comprehension of parse_string_list: strip every piece and keep the non-empty ones, in order. */
  function Clean(pieces: seq<string>): (r: seq<string>)
    ensures |r| <= |pieces|
    ensures NonEmptyStripped(r)
    ensures CommaFree(pieces) ==> CommaFree(r)
  {
    if pieces == [] then []
    else
      var item := Strip(pieces[0]);
      var rest := Clean(pieces[1..]);
      assert CommaFree(pieces) ==> CommaFree(pieces[1..]) && ',' !in pieces[0];
      if item != [] then [item] + rest else rest
  }

  /** parse_string_list: a falsy argument (None or "") gives the empty list. */
  function ParseStringList(s: Option<string>): (r: seq<string>)
    ensures (s == None || s == Some("")) ==> r == []
    ensures WellFormedItems(r)
    ensures s.Some? ==> |r| <= CommaCount(s.value) + 1
  {
    if s.None? || s.value == "" then [] else Clean(Split(s.value))
  }

  // ---------------------------------------------------------------------------
  // Split and Join with "," are inverse to each other.

  /** A character put in front of the first of at least two pieces lands in front of the join. */
  lemma JoinConsFirst(c: char, first: string, more: seq<string>)
    requires more != []
    ensures Join([[c] + first] + more, ",") == [c] + Join([first] + more, ",")
  {
    var tail := Join(more, ",");
    assert ([[c] + first] + more)[1..] == more;
    assert ([first] + more)[1..] == more;
    assert Join([[c] + first] + more, ",") == ([c] + first) + "," + tail;
    assert Join([first] + more, ",") == first + "," + tail;
  }

  lemma {:induction false} SplitJoin(s: string)
    ensures Join(Split(s), ",") == s
  {
    if s != [] {
      var rest := Split(s[1..]);
      SplitJoin(s[1..]);
      assert s == [s[0]] + s[1..];
      if s[0] == ',' {
        assert Split(s) == [[]] + rest;
        assert Join(Split(s), ",") == [] + "," + Join(rest, ",");
      } else if |rest| == 1 {
        assert Split(s) == [[s[0]] + rest[0]];
      } else {
        assert rest == [rest[0]] + rest[1..];
        JoinConsFirst(s[0], rest[0], rest[1..]);
      }
    }
  }

  /** One step of split(','): a leading non-comma character joins the first piece. */
  lemma SplitCons(c: char, t: string)
    requires c != ','
    ensures Split([c] + t) == [[c] + Split(t)[0]] + Split(t)[1..]
  {
    assert ([c] + t)[1..] == t;
  }

  /** Splitting text that starts with a comma-free x puts x at the head of the first piece. */
  lemma {:induction false} SplitCommaFreePrefix(x: string, t: string)
    requires ',' !in x
    ensures Split(x + t) == [x + Split(t)[0]] + Split(t)[1..]
  {
    var parts := Split(t);
    if x != [] {
      var y := x[1..] + t;
      assert x + t == [x[0]] + y;
      SplitCommaFreePrefix(x[1..], t);
      var ys := Split(y);
      assert ys[0] == x[1..] + parts[0];
      assert ys[1..] == parts[1..];
      SplitCons(x[0], y);
      assert [x[0]] + (x[1..] + parts[0]) == x + parts[0];
    } else {
      assert x + t == t;
      assert x + parts[0] == parts[0];
      assert parts == [parts[0]] + parts[1..];
    }
  }

  lemma {:induction false} JoinSplit(parts: seq<string>)
    requires |parts| >= 1
    requires forall k :: 0 <= k < |parts| ==> ',' !in parts[k]
    ensures Split(Join(parts, ",")) == parts
  {
    if |parts| == 1 {
      SplitCommaFreePrefix(parts[0], []);
      assert parts[0] + [] == parts[0];
    } else {
      var tail := Join(parts[1..], ",");
      JoinSplit(parts[1..]);
      assert Join(parts, ",") == parts[0] + ("," + tail);
      SplitCommaFreePrefix(parts[0], "," + tail);
      assert ("," + tail)[0] == ',' && ("," + tail)[1..] == tail;
      assert Split("," + tail) == [[]] + parts[1..];
      assert parts[0] + [] == parts[0];
    }
  }

  // ---------------------------------------------------------------------------
  // Joining with ", " is joining with "," after prefixing every item but the first with a space.

  function Indent(items: seq<string>): (r: seq<string>)
    ensures |r| == |items|
    ensures forall k :: 0 <= k < |r| ==> r[k] == " " + items[k]
  {
    if items == [] then [] else [" " + items[0]] + Indent(items[1..])
  }

  lemma {:induction false} JoinCommaSpace(items: seq<string>)
    requires |items| >= 1
    ensures Join(items, ", ") == Join([items[0]] + Indent(items[1..]), ",")
  {
    if |items| >= 2 {
      JoinCommaSpace(items[1..]);
      var rest := Indent(items[2..]);
      assert items[1..][0] == items[1] && items[1..][1..] == items[2..];
      assert Indent(items[1..]) == [" " + items[1]] + rest;
      assert ([items[0]] + Indent(items[1..]))[1..] == Indent(items[1..]);
      if |items| == 2 {
        assert Join(Indent(items[1..]), ",") == " " + items[1];
      } else {
        assert ([items[1]] + rest)[1..] == rest;
        assert ([" " + items[1]] + rest)[1..] == rest;
        assert Join([" " + items[1]] + rest, ",") == " " + Join([items[1]] + rest, ",");
      }
    }
  }

  lemma StripSpacePrefix(x: string)
    requires x != [] && Stripped(x)
    ensures Strip(" " + x) == x
  {
    var t := " " + x;
    assert t[0] == ' ' && t[1..] == x;
    assert TrimStart(t) == TrimStart(x) == x;
    assert TrimEnd(x) == x;
  }

  lemma {:induction false} CleanIndent(items: seq<string>)
    requires WellFormedItems(items)
    ensures Clean(Indent(items)) == items
  {
    if items != [] {
      StripSpacePrefix(items[0]);
      CleanIndent(items[1..]);
      assert Indent(items)[1..] == Indent(items[1..]);
    }
  }

  /** Order is kept: cleaning a concatenation is concatenating the cleaned parts. */
  /** A single piece yields its stripped text exactly when that is not empty. */
  lemma CleanOne(p: string)
    ensures Clean([p]) == (if Strip(p) != [] then [Strip(p)] else [])
  {
    var ps: seq<string> := [p];
    assert ps[1..] == [];
  }

  lemma {:induction false} CleanConcat(a: seq<string>, b: seq<string>)
    ensures Clean(a + b) == Clean(a) + Clean(b)
  {
    if a != [] {
      CleanConcat(a[1..], b);
      assert (a + b)[0] == a[0] && (a + b)[1..] == a[1..] + b;
    } else {
      assert a + b == b;
    }
  }

  /** The comprehension piece by piece: one piece yields its stripped text exactly when that is
      not empty, and the items of a concatenation are those of its parts, in order. */
  lemma CleanAppend(a: seq<string>, b: seq<string>)
    ensures |a| == 1 ==> Clean(a) == (if Strip(a[0]) != [] then [Strip(a[0])] else [])
    ensures Clean(a + b) == Clean(a) + Clean(b)
  {
    if |a| == 1 {
      assert a == [a[0]];
      CleanOne(a[0]);
    }
    CleanConcat(a, b);
  }

  // ---------------------------------------------------------------------------
  // Round trips.

  /** Splitting the ", "-join of well-formed items at ',' gives the first item and the others
      each with a leading space. */
  lemma PiecesOfJoin(items: seq<string>)
    requires items != [] && WellFormedItems(items)
    ensures Split(Join(items, ", ")) == [items[0]] + Indent(items[1..])
  {
    var pieces := [items[0]] + Indent(items[1..]);
    JoinCommaSpace(items);
    forall k | 0 <= k < |pieces| ensures ',' !in pieces[k] {
      if k > 0 {
        assert pieces[k] == " " + items[k];
        assert WellFormedItem(items[k]);
      }
    }
    JoinSplit(pieces);
  }

  /** Stripping those pieces and dropping empty ones gives back the items. */
  lemma CleanPieces(items: seq<string>)
    requires items != [] && WellFormedItems(items)
    ensures Clean([items[0]] + Indent(items[1..])) == items
  {
    var pieces := [items[0]] + Indent(items[1..]);
    assert pieces[0] == items[0] && pieces[1..] == Indent(items[1..]);
    assert Strip(items[0]) == items[0];
    CleanIndent(items[1..]);
    assert [items[0]] + items[1..] == items;
  }

  /** Reading back the ", "-join of well-formed items gives back exactly those items. */
  lemma RoundTrip(items: seq<string>)
    requires WellFormedItems(items)
    ensures ParseStringList(Some(Join(items, ", "))) == items
  {
    if items != [] {
      var joined := Join(items, ", ");
      assert joined != [] by {
        if |items| > 1 {
          assert joined == items[0] + ", " + Join(items[1..], ", ");
        }
      }
      PiecesOfJoin(items);
      CleanPieces(items);
    }
  }

  /** Parsing is idempotent across a save: re-joining a parsed list and parsing again changes nothing. */
  lemma ParseIdempotent(s: Option<string>)
    ensures ParseStringList(Some(Join(ParseStringList(s), ", "))) == ParseStringList(s)
  {
    RoundTrip(ParseStringList(s));
  }

  // ---------------------------------------------------------------------------
  // The stored form: ", ".join(sorted(selection)).

  /** Python's ordering of str: lexicographic by code point. */
  predicate LexLe(a: string, b: string) {
    a == [] || (b != [] && (a[0] < b[0] || (a[0] == b[0] && LexLe(a[1..], b[1..]))))
  }

  lemma {:induction false} LexLeTotal(a: string, b: string)
    ensures LexLe(a, b) || LexLe(b, a)
  {
    if a != [] && b != [] && a[0] == b[0] {
      LexLeTotal(a[1..], b[1..]);
    }
  }

  predicate SortedStrings(s: seq<string>) {
    forall i :: 0 < i < |s| ==> LexLe(s[i - 1], s[i])
  }

  function InsertString(x: string, s: seq<string>): (r: seq<string>)
    ensures multiset(r) == multiset(s) + multiset{x}
    ensures r != [] && (r[0] == x || (s != [] && r[0] == s[0]))
  {
    if s == [] || LexLe(x, s[0]) then [x] + s
    else
      assert multiset(s) == multiset{s[0]} + multiset(s[1..]) by { assert s == [s[0]] + s[1..]; }
      [s[0]] + InsertString(x, s[1..])
  }

  lemma {:induction false} InsertStringKeepsSorted(x: string, s: seq<string>)
    requires SortedStrings(s)
    ensures SortedStrings(InsertString(x, s))
  {
    if s != [] && !LexLe(x, s[0]) {
      var tail := s[1..];
      assert SortedStrings(tail);
      InsertStringKeepsSorted(x, tail);
      LexLeTotal(x, s[0]);
      var r := InsertString(x, s);
      var rest := InsertString(x, tail);
      assert r == [s[0]] + rest;
      assert rest[0] == x || rest[0] == tail[0];
    }
  }

  /** sorted(list) on strings. */
  function SortStrings(s: seq<string>): (r: seq<string>)
    ensures multiset(r) == multiset(s)
    ensures SortedStrings(r)
  {
    if s == [] then []
    else
      assert s == [s[0]] + s[1..];
      InsertStringKeepsSorted(s[0], SortStrings(s[1..]));
      InsertString(s[0], SortStrings(s[1..]))
  }

  /** Sorting keeps every item well formed, since it only permutes them. */
  lemma SortedWellFormed(items: seq<string>)
    requires WellFormedItems(items)
    ensures WellFormedItems(SortStrings(items))
  {
    var sorted := SortStrings(items);
    forall k | 0 <= k < |sorted| ensures WellFormedItem(sorted[k]) {
      assert sorted[k] in multiset(items);
    }
  }

  /** The stored form of a multiselect: ", ".join(sorted(selection)). Reading it back gives the
      selection in sorted order, a permutation of what was selected. */
  function Encode(items: seq<string>): (r: string)
    ensures WellFormedItems(items) ==> ParseStringList(Some(r)) == SortStrings(items)
    ensures WellFormedItems(items) ==> multiset(ParseStringList(Some(r))) == multiset(items)
  {
    var sorted := SortStrings(items);
    assert WellFormedItems(items) ==> ParseStringList(Some(Join(sorted, ", "))) == sorted by {
      if WellFormedItems(items) {
        SortedWellFormed(items);
        RoundTrip(sorted);
      }
    }
    Join(sorted, ", ")
  }

  lemma {:induction false} SortSorted(s: seq<string>)
    requires SortedStrings(s)
    ensures SortStrings(s) == s
  {
    if s != [] {
      assert SortedStrings(s[1..]);
      SortSorted(s[1..]);
    }
  }

  /** Saving the update form unchanged stores the very same text again. */
  lemma ResaveUnchanged(items: seq<string>)
    requires WellFormedItems(items)
    ensures Encode(ParseStringList(Some(Encode(items)))) == Encode(items)
  {
    SortSorted(SortStrings(items));
  }
}
