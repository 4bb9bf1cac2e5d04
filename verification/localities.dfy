/**
 The locality display that most geo adapters give as their `ToString()`.

 Each adapter walks its locality properties from most to least specific.
 For every property that is not null or white space it appends the text,
 then (for all but the last property of some adapters) the separator
 `", "`. The accumulated text is finally passed to `TrimEnd(',', ' ')`,
 which removes EVERY trailing comma and space, including ones that belong
 to the last kept text itself.
 */
module Localities {
  import opened Results
  import opened Text

  /** The characters `TrimEnd(',', ' ')` removes. */
  const Trimmed: set<char> := {',', ' '}

  /** What is appended after a kept segment that is separated. */
  const Separator: string := ", "

  /** One locality property, and whether the adapter appends `", "` after it. */
  datatype Segment = Segment(text: Option<string>, separated: bool)

  /** A segment the adapter appends: not null and not white space only. */
  predicate Kept(s: Segment) {
    !IsNullOrWhiteSpace(s.text)
  }

  /** The contents of the string builder before trimming. */
  function Appended(segs: seq<Segment>): string
    decreases |segs|
  {
    if |segs| == 0 then ""
    else
      var s := segs[0];
      var head := if !Kept(s) then "" else s.text.value + (if s.separated then Separator else "");
      head + Appended(segs[1..])
  }

  /** The texts of the kept segments, in order. */
  function KeptTexts(segs: seq<Segment>): (ts: seq<string>)
    ensures |ts| <= |segs|
    ensures forall i :: 0 <= i < |ts| ==> !IsBlank(ts[i])
    decreases |segs|
  {
    if |segs| == 0 then []
    else if Kept(segs[0]) then [segs[0].text.value] + KeptTexts(segs[1..])
    else KeptTexts(segs[1..])
  }

  /** The display: the appended text with trailing commas and spaces trimmed. */
  function Compose(segs: seq<Segment>): (d: string)
    ensures d <= Appended(segs)
    ensures |d| == 0 || d[|d| - 1] !in Trimmed
    ensures forall i :: |d| <= i < |Appended(segs)| ==> Appended(segs)[i] in Trimmed
  {
    TrimEnd(Appended(segs), Trimmed)
  }

  /** Every adapter separates all of its segments except, possibly, the last. */
  predicate SeparatedBeforeLast(segs: seq<Segment>) {
    forall i :: 0 <= i < |segs| - 1 ==> segs[i].separated
  }

  /**
   Before trimming, the builder holds the kept texts joined by `", "`,
   possibly followed by one more `", "`; with nothing kept it is empty.
   */
  lemma {:induction false} AppendedIsJoin(segs: seq<Segment>)
    requires SeparatedBeforeLast(segs)
    ensures KeptTexts(segs) == [] ==> Appended(segs) == ""
    ensures Appended(segs) == Join(KeptTexts(segs), Separator)
         || Appended(segs) == Join(KeptTexts(segs), Separator) + Separator
    decreases |segs|
  {
    if |segs| > 0 {
      var rest := segs[1..];
      assert SeparatedBeforeLast(rest);
      AppendedIsJoin(rest);
      var kr := KeptTexts(rest);
      if Kept(segs[0]) {
        var t := segs[0].text.value;
        assert KeptTexts(segs) == [t] + kr;
        if |kr| > 0 {
          assert |segs| > 1;
          assert ([t] + kr)[1..] == kr;
          assert Join([t] + kr, Separator) == t + Separator + Join(kr, Separator);
        }
      }
    }
  }

  /** Appending only trimmed characters does not change the trimmed result. */
  lemma {:induction false} TrimEndAbsorbs(x: string, y: string, trim: set<char>)
    requires forall i :: 0 <= i < |y| ==> y[i] in trim
    ensures TrimEnd(x + y, trim) == TrimEnd(x, trim)
    decreases |y|
  {
    if |y| == 0 {
      assert x + y == x;
    } else {
      var y' := y[..|y| - 1];
      assert (x + y)[..|x + y| - 1] == x + y';
      assert (x + y)[|x + y| - 1] == y[|y| - 1];
      assert TrimEnd(x + y, trim) == TrimEnd(x + y', trim);
      TrimEndAbsorbs(x, y', trim);
    }
  }

  /** A prefix that ends in a kept character survives trimming. */
  lemma {:induction false} TrimEndKeepsPrefix(p: string, q: string, trim: set<char>)
    requires |p| > 0 && p[|p| - 1] !in trim
    ensures p <= TrimEnd(p + q, trim)
    decreases |q|
  {
    if |q| > 0 {
      var q' := q[..|q| - 1];
      assert (p + q)[..|p + q| - 1] == p + q';
      if q[|q| - 1] in trim {
        TrimEndKeepsPrefix(p, q', trim);
      }
    }
  }

  /**
   Composing equals trimming the `", "`-join of the kept texts: blank
   segments are omitted and the kept ones appear in order.
   */
  lemma ComposeIsTrimmedJoin(segs: seq<Segment>)
    requires SeparatedBeforeLast(segs)
    ensures Compose(segs) == TrimEnd(Join(KeptTexts(segs), Separator), Trimmed)
    ensures Compose(segs) <= Join(KeptTexts(segs), Separator)
  {
    AppendedIsJoin(segs);
    var j := Join(KeptTexts(segs), Separator);
    if Appended(segs) != j {
      TrimEndAbsorbs(j, Separator, Trimmed);
    }
  }

  /**
   When the last kept text does not itself end in a comma or space, the
   display is exactly the kept texts joined by `", "`; with nothing kept it
   is the empty string.
   */
  lemma ComposeJoinsKept(segs: seq<Segment>)
    requires SeparatedBeforeLast(segs)
    requires var ts := KeptTexts(segs); |ts| == 0 || ts[|ts| - 1][|ts[|ts| - 1]| - 1] !in Trimmed
    ensures Compose(segs) == Join(KeptTexts(segs), Separator)
    ensures KeptTexts(segs) == [] ==> Compose(segs) == ""
  {
    ComposeIsTrimmedJoin(segs);
    JoinEndsWithLast(KeptTexts(segs), Separator);
  }

  /** A join of non-empty texts ends with the last character of the last text. */
  lemma {:induction false} JoinEndsWithLast(ts: seq<string>, sep: string)
    requires |ts| > 0 ==> |ts[|ts| - 1]| > 0
    ensures |ts| > 0 ==>
              (|Join(ts, sep)| > 0 && Join(ts, sep)[|Join(ts, sep)| - 1] == ts[|ts| - 1][|ts[|ts| - 1]| - 1])
    decreases |ts|
  {
    if |ts| > 1 {
      JoinEndsWithLast(ts[1..], sep);
    }
  }

  /**
   No separator precedes the first kept text: when that text does not end
   in a comma or space, the display starts with it.
   */
  lemma ComposeStartsWithFirstKept(segs: seq<Segment>)
    requires SeparatedBeforeLast(segs)
    requires var ts := KeptTexts(segs); |ts| > 0 && ts[0][|ts[0]| - 1] !in Trimmed
    ensures KeptTexts(segs)[0] <= Compose(segs)
  {
    var ts := KeptTexts(segs);
    AppendedIsJoin(segs);
    var a := Appended(segs);
    var rest := a[|ts[0]|..];
    assert Join(ts, Separator) == ts[0] + Join(ts, Separator)[|ts[0]|..] by {
      if |ts| > 1 {
        assert Join(ts, Separator) == ts[0] + (Separator + Join(ts[1..], Separator));
      }
    }
    assert a == ts[0] + rest;
    TrimEndKeepsPrefix(ts[0], rest, Trimmed);
  }

  /** The texts that are neither null nor white space, in order. */
  function NonBlank(xs: seq<Option<string>>): (ts: seq<string>)
    ensures forall i :: 0 <= i < |ts| ==> !IsBlank(ts[i])
    decreases |xs|
  {
    if |xs| == 0 then []
    else if IsNullOrWhiteSpace(xs[0]) then NonBlank(xs[1..])
    else [xs[0].value] + NonBlank(xs[1..])
  }

  /** Segments with the given texts; all but the last are followed by `", "`. */
  function Segments(xs: seq<Option<string>>, lastSeparated: bool): (segs: seq<Segment>)
    ensures |segs| == |xs|
    ensures SeparatedBeforeLast(segs)
    ensures forall i :: 0 <= i < |xs| ==> segs[i].text == xs[i]
  {
    seq(|xs|, i requires 0 <= i < |xs| => Segment(xs[i], i < |xs| - 1 || lastSeparated))
  }

  /** The segments an adapter keeps are exactly the non-blank texts. */
  lemma {:induction false} KeptTextsAreNonBlank(segs: seq<Segment>, xs: seq<Option<string>>)
    requires |segs| == |xs|
    requires forall i :: 0 <= i < |xs| ==> segs[i].text == xs[i]
    ensures KeptTexts(segs) == NonBlank(xs)
    decreases |xs|
  {
    if |xs| > 0 {
      KeptTextsAreNonBlank(segs[1..], xs[1..]);
    }
  }

  /**
   The display of a list of locality texts: blank ones are omitted, the
   rest appear in order joined by `", "`, and trailing commas and spaces
   are trimmed, so the result is a prefix of that join: nothing is ever
   placed before the first kept text. It never ends with a comma or a
   space; it is empty
   when every text is blank; it is exactly the join when the last kept
   text does not itself end in a comma or space; and it starts with the
   first kept text, not with a separator, when that text does not end in
   one.
   */
  function Display(xs: seq<Option<string>>, lastSeparated: bool): (d: string)
    ensures d == TrimEnd(Join(NonBlank(xs), Separator), Trimmed)
    ensures d <= Join(NonBlank(xs), Separator)
    ensures |d| == 0 || d[|d| - 1] !in Trimmed
    ensures NonBlank(xs) == [] ==> d == ""
    ensures var ts := NonBlank(xs);
      |ts| > 0 && ts[|ts| - 1][|ts[|ts| - 1]| - 1] !in Trimmed ==> d == Join(ts, Separator)
    ensures var ts := NonBlank(xs);
      |ts| > 0 && ts[0][|ts[0]| - 1] !in Trimmed ==> ts[0] <= d
  {
    var segs := Segments(xs, lastSeparated);
    ComposeIsTrimmedJoin(segs);
    KeptTextsAreNonBlank(segs, xs);
    DisplayEndsLast(segs);
    DisplayEndsFirst(segs);
    Compose(segs)
  }

  /** When the last kept text ends cleanly, the composition is exactly the join. */
  lemma DisplayEndsLast(segs: seq<Segment>)
    requires SeparatedBeforeLast(segs)
    ensures var ts := KeptTexts(segs);
      |ts| > 0 && ts[|ts| - 1][|ts[|ts| - 1]| - 1] !in Trimmed ==> Compose(segs) == Join(ts, Separator)
  {
    var ts := KeptTexts(segs);
    if |ts| > 0 && ts[|ts| - 1][|ts[|ts| - 1]| - 1] !in Trimmed {
      ComposeJoinsKept(segs);
    }
  }

  /** When the first kept text ends cleanly, the composition starts with it. */
  lemma DisplayEndsFirst(segs: seq<Segment>)
    requires SeparatedBeforeLast(segs)
    ensures var ts := KeptTexts(segs);
      |ts| > 0 && ts[0][|ts[0]| - 1] !in Trimmed ==> ts[0] <= Compose(segs)
  {
    var ts := KeptTexts(segs);
    if |ts| > 0 && ts[0][|ts[0]| - 1] !in Trimmed {
      ComposeStartsWithFirstKept(segs);
    }
  }
}
