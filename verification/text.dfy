/**
 The .NET string operations the adapters rely on: `string.IsNullOrEmpty`,
 `string.IsNullOrWhiteSpace`, `TrimEnd(chars)`, `Trim()`, `Split(char)` and
 `string.Join`, together with the query strings built by interpolation.
 */
module Text {
  import opened Results

  /** The code points for which .NET `char.IsWhiteSpace` is true. */
  const WhiteSpace: set<char> := {
    '\t', '\n', '\U{000B}', '\U{000C}', '\r', ' ', '\U{0085}', '\U{00A0}', '\U{1680}',
    '\U{2000}', '\U{2001}', '\U{2002}', '\U{2003}', '\U{2004}', '\U{2005}',
    '\U{2006}', '\U{2007}', '\U{2008}', '\U{2009}', '\U{200A}',
    '\U{2028}', '\U{2029}', '\U{202F}', '\U{205F}', '\U{3000}'
  }

  predicate IsBlank(s: string) {
    forall i :: 0 <= i < |s| ==> s[i] in WhiteSpace
  }

  /** `string.IsNullOrEmpty`. */
  predicate IsNullOrEmpty(s: Option<string>) {
    s.None? || s.value == ""
  }

  /** `string.IsNullOrWhiteSpace`: absent, empty, or only white space. */
  predicate IsNullOrWhiteSpace(s: Option<string>) {
    s.None? || IsBlank(s.value)
  }

  /**
   `string.IsNullOrWhiteSpace` holds exactly for null and for text that
   `Trim()` empties; in particular for everything `string.IsNullOrEmpty`
   accepts.
   */
  lemma NullOrWhiteSpaceIsTrimmedAway(s: Option<string>)
    ensures IsNullOrWhiteSpace(s) <==> s.None? || Trim(s.value) == ""
    ensures IsNullOrEmpty(s) ==> IsNullOrWhiteSpace(s)
  {
  }

  /** `s.TrimEnd(trim...)`: drops every trailing character that is in `trim`. */
  function TrimEnd(s: string, trim: set<char>): (r: string)
    ensures r <= s
    ensures |r| == 0 || r[|r| - 1] !in trim
    ensures forall i :: |r| <= i < |s| ==> s[i] in trim
    decreases |s|
  {
    if |s| > 0 && s[|s| - 1] in trim then TrimEnd(s[..|s| - 1], trim) else s
  }

  /** `s.TrimStart(trim...)`: drops every leading character that is in `trim`. */
  function TrimStart(s: string, trim: set<char>): (r: string)
    ensures |r| <= |s| && r == s[|s| - |r|..]
    ensures |r| == 0 || r[0] !in trim
    ensures forall i :: 0 <= i < |s| - |r| ==> s[i] in trim
    decreases |s|
  {
    if |s| > 0 && s[0] in trim then TrimStart(s[1..], trim) else s
  }

  /**
   `r` is the slice of `s` starting at position `i`, and every character of
   `s` outside that slice is in `trim`.
   */
  predicate TrimmedAt(s: string, r: string, i: int, trim: set<char>) {
    && 0 <= i <= |s| - |r|
    && r == s[i..i + |r|]
    && forall k :: 0 <= k < |s| && (k < i || i + |r| <= k) ==> s[k] in trim
  }

  /**
   Trimming the characters of `trim` from both ends: the result is a
   contiguous slice of `s`, it neither starts nor ends with one of them, and
   everything cut away on either side is made of them.
   */
  function TrimBoth(s: string, trim: set<char>): (r: string)
    ensures exists i :: TrimmedAt(s, r, i, trim)
    ensures |r| == 0 || (r[0] !in trim && r[|r| - 1] !in trim)
  {
    var e := TrimEnd(s, trim);
    var r := TrimStart(e, trim);
    TrimBothAt(s, trim);
    assert TrimmedAt(s, r, |e| - |r|, trim);
    r
  }

  /** Trimming the end and then the start leaves the slice that starts after the cut-off head. */
  lemma TrimBothAt(s: string, trim: set<char>)
    ensures var e := TrimEnd(s, trim); var r := TrimStart(e, trim);
      TrimmedAt(s, r, |e| - |r|, trim)
  {
    var e := TrimEnd(s, trim);
    var r := TrimStart(e, trim);
    var i := |e| - |r|;
    assert e == s[..|e|];
    assert r == e[i..];
    assert r == s[i..i + |r|];
    forall k | 0 <= k < |s| && (k < i || i + |r| <= k)
      ensures s[k] in trim
    {
      if k < i {
        assert s[k] == e[k];
      }
    }
  }

  /**
   `s.Trim()`: `s` with its leading and trailing white space removed. The
   result is a slice of `s`, everything cut away is white space, and the
   result neither starts nor ends with white space; it is empty exactly
   when `s` is blank.
   */
  function Trim(s: string): (r: string)
    ensures exists i :: TrimmedAt(s, r, i, WhiteSpace)
    ensures |r| == 0 || (r[0] !in WhiteSpace && r[|r| - 1] !in WhiteSpace)
    ensures IsBlank(s) <==> r == ""
  {
    var r := TrimBoth(s, WhiteSpace);
    BlankIffTrimmedAway(s, r, WhiteSpace);
    r
  }

  /** A trimmed slice is empty exactly when every character of the input was trimmable. */
  lemma BlankIffTrimmedAway(s: string, r: string, trim: set<char>)
    requires exists i :: TrimmedAt(s, r, i, trim)
    requires |r| == 0 || r[0] !in trim
    ensures (forall k :: 0 <= k < |s| ==> s[k] in trim) <==> r == ""
  {
    var i :| TrimmedAt(s, r, i, trim);
    if r != "" {
      assert s[i] == r[0];
    }
  }

  /** Trimming twice trims nothing more. */
  lemma TrimIdempotent(s: string)
    ensures Trim(Trim(s)) == Trim(s)
  {
    var r := Trim(s);
    TrimEndClean(r, WhiteSpace);
    TrimStartClean(r, WhiteSpace);
  }

  /** A text whose last character is kept is its own `TrimEnd`. */
  lemma TrimEndClean(s: string, trim: set<char>)
    requires |s| == 0 || s[|s| - 1] !in trim
    ensures TrimEnd(s, trim) == s
  {
  }

  /** A text whose first character is kept is its own `TrimStart`. */
  lemma TrimStartClean(s: string, trim: set<char>)
    requires |s| == 0 || s[0] !in trim
    ensures TrimStart(s, trim) == s
  {
  }

  /** `s.Split(c)`: the pieces between occurrences of `c`; never empty. */
  function Split(s: string, c: char): (parts: seq<string>)
    ensures |parts| >= 1
    ensures forall i :: 0 <= i < |parts| ==> c !in parts[i]
    ensures |parts| == 1 <==> c !in s
    decreases |s|
  {
    if |s| == 0 then [""]
    else
      var rest := Split(s[1..], c);
      if s[0] == c then [""] + rest
      else [[s[0]] + rest[0]] + rest[1..]
  }

  /** `string.Join(sep, parts)`. */
  function Join(parts: seq<string>, sep: string): string
    decreases |parts|
  {
    if |parts| == 0 then ""
    else if |parts| == 1 then parts[0]
    else parts[0] + sep + Join(parts[1..], sep)
  }

  /** Splitting and joining again on the same character gives the input back. */
  lemma {:induction false} JoinSplit(s: string, c: char)
    ensures Join(Split(s, c), [c]) == s
    decreases |s|
  {
    if |s| > 0 {
      JoinSplit(s[1..], c);
      var rest := Split(s[1..], c);
      if s[0] == c {
        assert Split(s, c) == [""] + rest;
        assert ([""] + rest)[1..] == rest;
      } else {
        var parts := [[s[0]] + rest[0]] + rest[1..];
        if |rest| == 1 {
          assert s == [s[0]] + s[1..];
        } else {
          assert parts[1..] == rest[1..];
          assert Join(rest, [c]) == rest[0] + [c] + Join(rest[1..], [c]);
          assert s == [s[0]] + s[1..];
        }
      }
    }
  }

  /** Splitting the join of pieces free of the separator gives the pieces back. */
  lemma {:induction false} SplitJoin(parts: seq<string>, c: char)
    requires |parts| >= 1
    requires forall i :: 0 <= i < |parts| ==> c !in parts[i]
    ensures Split(Join(parts, [c]), c) == parts
    decreases |parts|
  {
    if |parts| == 1 {
      SplitFree(parts[0], c);
    } else {
      SplitJoin(parts[1..], c);
      SplitPrefix(parts[0], Join(parts[1..], [c]), c);
    }
  }

  /** A string without the separator splits into itself. */
  lemma {:induction false} SplitFree(s: string, c: char)
    requires c !in s
    ensures Split(s, c) == [s]
    decreases |s|
  {
    if |s| > 0 {
      SplitFree(s[1..], c);
      assert [s[0]] + s[1..] == s;
    }
  }

  /** Splitting `p + c + q`, where `p` holds no `c`, yields `p` then the pieces of `q`. */
  lemma {:induction false} SplitPrefix(p: string, q: string, c: char)
    requires c !in p
    ensures Split(p + [c] + q, c) == [p] + Split(q, c)
    decreases |p|
  {
    if |p| == 0 {
      assert ([c] + q)[1..] == q;
    } else {
      SplitPrefix(p[1..], q, c);
      assert (p + [c] + q)[1..] == p[1..] + [c] + q;
      assert (p + [c] + q)[0] == p[0];
      assert [p[0]] + p[1..] == p;
    }
  }

  /** A text is determined by its pieces: two texts that split alike are equal. */
  lemma SplitDetermines(a: string, b: string, c: char)
    requires Split(a, c) == Split(b, c)
    ensures a == b
  {
    JoinSplit(a, c);
    JoinSplit(b, c);
  }

  /** A text splits into itself exactly when it holds no separator. */
  lemma SplitWhole(s: string, c: char)
    ensures c !in s <==> Split(s, c) == [s]
  {
    if c !in s {
      SplitFree(s, c);
    }
  }

  /** Splitting at one occurrence of the separator splits each side on its own. */
  lemma {:induction false} SplitAround(p: string, q: string, c: char)
    ensures Split(p + [c] + q, c) == Split(p, c) + Split(q, c)
    decreases |p|, 1
  {
    if c !in p {
      SplitPrefix(p, q, c);
      SplitFree(p, c);
    } else {
      SplitAroundCut(p, q, c);
    }
  }

  /** `SplitAround` for a `p` holding the separator: cut `p` at its first one and recurse on the rest. */
  lemma {:induction false} SplitAroundCut(p: string, q: string, c: char)
    requires c in p
    ensures Split(p + [c] + q, c) == Split(p, c) + Split(q, c)
    decreases |p|, 0
  {
    var head, tail := CutSplits(p, q, c);
    SplitAround(tail, q, c);
    AppendAssoc([head], Split(tail, c), Split(q, c));
  }

  lemma AppendAssoc<T>(a: seq<T>, b: seq<T>, c: seq<T>)
    ensures a + (b + c) == a + b + c
  {
  }

  /**
   Cutting `p` at its first separator into `head` and a shorter `tail`:
   `head` is the first piece, both of `p` and of `p + c + q`.
   */
  lemma CutSplits(p: string, q: string, c: char) returns (head: string, tail: string)
    requires c in p
    ensures |tail| < |p|
    ensures Split(p, c) == [head] + Split(tail, c)
    ensures Split(p + [c] + q, c) == [head] + Split(tail + [c] + q, c)
  {
    var k := IndexOf(p, c);
    CutAt(p, q, c);
    head, tail := p[..k], p[k + 1..];
    SplitPrefix(head, tail, c);
    SplitPrefix(head, tail + [c] + q, c);
  }

  /** `p` is its text before the first `c`, that `c`, and the text after it. */
  lemma CutAt(p: string, q: string, c: char)
    requires c in p
    ensures var k := IndexOf(p, c);
      && c !in p[..k]
      && p == p[..k] + [c] + p[k + 1..]
      && p + [c] + q == p[..k] + [c] + (p[k + 1..] + [c] + q)
  {
    var k := IndexOf(p, c);
    assert p == p[..k] + [c] + p[k + 1..];
  }

  /** One `name=value` pair of a query string, as written by interpolation. */
  datatype Param = Param(name: string, value: string)

  function PairText(p: Param): string {
    p.name + "=" + p.value
  }

  /** `?n1=v1&n2=v2...`, concatenated verbatim: nothing is escaped. */
  function Query(ps: seq<Param>): (q: string)
    ensures |q| >= 1 && q[0] == '?'
  {
    "?" + Join(Pairs(ps), "&")
  }

  function Pairs(ps: seq<Param>): (r: seq<string>)
    ensures |r| == |ps|
    ensures forall i :: 0 <= i < |ps| ==> r[i] == PairText(ps[i])
  {
    if |ps| == 0 then [] else [PairText(ps[0])] + Pairs(ps[1..])
  }

  /** Reads a query string back into its pairs: the inverse of `Query` on clean input. */
  function ParseQuery(q: string): (ps: Option<seq<Param>>)
  {
    if |q| == 0 || q[0] != '?' then None
    else ParsePairs(Split(q[1..], '&'))
  }

  function ParsePairs(pieces: seq<string>): (ps: Option<seq<Param>>)
    ensures ps.Some? ==> |ps.value| == |pieces|
  {
    if |pieces| == 0 then Some([])
    else
      var kv := Split(pieces[0], '=');
      if |kv| != 2 then None
      else match ParsePairs(pieces[1..])
        case None => None
        case Some(rest) => Some([Param(kv[0], kv[1])] + rest)
  }

  /** A name or value that interpolation can carry without changing the structure. */
  predicate Clean(s: string) {
    '&' !in s && '=' !in s
  }

  /**
   When no name or value contains `&` or `=`, the query string determines
   its pairs: `ParseQuery` recovers exactly what `Query` was given.
   */
  lemma {:induction false} QueryRoundTrip(ps: seq<Param>)
    requires |ps| >= 1
    requires forall i :: 0 <= i < |ps| ==> Clean(ps[i].name) && Clean(ps[i].value)
    ensures ParseQuery(Query(ps)) == Some(ps)
  {
    var pairs := Pairs(ps);
    forall i | 0 <= i < |pairs| ensures '&' !in pairs[i] {
      assert pairs[i] == ps[i].name + "=" + ps[i].value;
    }
    SplitJoin(pairs, '&');
    assert Query(ps)[1..] == Join(pairs, "&");
    ParsePairsOfClean(ps);
  }

  lemma {:induction false} ParsePairsOfClean(ps: seq<Param>)
    requires forall i :: 0 <= i < |ps| ==> Clean(ps[i].name) && Clean(ps[i].value)
    ensures ParsePairs(Pairs(ps)) == Some(ps)
    decreases |ps|
  {
    if |ps| > 0 {
      var p := ps[0];
      SplitPrefix(p.name, p.value, '=');
      SplitFree(p.value, '=');
      assert Split(PairText(p), '=') == [p.name, p.value];
      assert Pairs(ps)[1..] == Pairs(ps[1..]);
      ParsePairsOfClean(ps[1..]);
      assert [p] + ps[1..] == ps;
    }
  }

  /** A one-pair query string, spelled out. */
  lemma QueryOne(a: string, b: string)
    ensures Query([Param(a, b)]) == "?" + a + "=" + b
  {
    assert Pairs([Param(a, b)]) == [a + "=" + b];
  }

  /** A two-pair query string, spelled out. */
  lemma QueryTwo(a: string, b: string, c: string, d: string)
    ensures Query([Param(a, b), Param(c, d)]) == "?" + a + "=" + b + "&" + c + "=" + d
  {
    var ps := [Param(a, b), Param(c, d)];
    assert Pairs(ps) == [a + "=" + b, c + "=" + d];
    assert Join([c + "=" + d], "&") == c + "=" + d;
  }

  /** A three-pair query string, spelled out. */
  lemma QueryThree(a: string, b: string, c: string, d: string, e: string, f: string)
    ensures Query([Param(a, b), Param(c, d), Param(e, f)])
         == "?" + a + "=" + b + "&" + c + "=" + d + "&" + e + "=" + f
  {
    var ps := [Param(a, b), Param(c, d), Param(e, f)];
    var xs := [a + "=" + b, c + "=" + d, e + "=" + f];
    assert Pairs(ps) == xs;
    assert xs[1..][1..] == [e + "=" + f];
    assert Join(xs[1..], "&") == c + "=" + d + "&" + e + "=" + f;
  }

  /** Position of the first `c` in `s`, or `|s|` when there is none. */
  function IndexOf(s: string, c: char): (k: nat)
    ensures k <= |s|
    ensures forall i :: 0 <= i < k ==> s[i] != c
    ensures k < |s| ==> s[k] == c
    decreases |s|
  {
    if |s| == 0 then 0 else if s[0] == c then 0 else 1 + IndexOf(s[1..], c)
  }

  /**
   The first piece of a split is the text before the first separator, and
   the remaining pieces are those of the text after it.
   */
  lemma {:induction false} SplitHead(s: string, c: char)
    ensures Split(s, c)[0] == s[..IndexOf(s, c)]
    ensures c in s ==> Split(s, c)[1..] == Split(s[IndexOf(s, c) + 1..], c)
    decreases |s|
  {
    if |s| > 0 && s[0] != c {
      var t := s[1..];
      SplitHead(t, c);
      var rest := Split(t, c);
      assert Split(s, c) == [[s[0]] + rest[0]] + rest[1..];
      var k := IndexOf(t, c);
      assert IndexOf(s, c) == 1 + k;
      assert s[..1 + k] == [s[0]] + t[..k];
      if c in s {
        assert c in t by {
          var j :| 0 <= j < |s| && s[j] == c;
          assert t[j - 1] == c;
        }
        assert s[1 + k + 1..] == t[k + 1..];
      }
    }
  }

  /** The first `c` after a prefix free of `c` is right after that prefix. */
  lemma IndexOfAfter(p: string, q: string, c: char)
    requires c !in p
    ensures IndexOf(p + [c] + q, c) == |p|
  {
    var s := p + [c] + q;
    assert s[|p|] == c;
    assert forall i :: 0 <= i < |p| ==> s[i] == p[i];
  }

  /** A string without `c` has no position of `c`. */
  lemma IndexOfAbsent(s: string, c: char)
    requires c !in s
    ensures IndexOf(s, c) == |s|
  {
  }

  /** A character absent from every piece and from the separator is absent from the join. */
  lemma {:induction false} JoinKeepsOut(parts: seq<string>, sep: string, c: char)
    requires c !in sep
    requires forall i :: 0 <= i < |parts| ==> c !in parts[i]
    ensures c !in Join(parts, sep)
    decreases |parts|
  {
    if |parts| > 1 {
      JoinKeepsOut(parts[1..], sep, c);
    }
  }
}
