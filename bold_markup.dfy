/**
 * The bold-markup parser of the focus widget (SproutAIFocusWidget.tsx,
 * `formatMessage`): the text is split with the capturing, global pattern
 * `(\*\*.*?\*\*)`, and every part that starts and ends with `**` is shown in
 * bold without its two leading and two trailing characters.
 *
 * The split follows the ECMAScript `String.prototype.split` algorithm for a
 * regular-expression separator: scan for the leftmost position where the
 * pattern matches, emit the text before it and the captured match, and go
 * on after the match. `.` matches any character but a line terminator, and
 * `.*?` takes the shortest run that lets a closing `**` follow.
 */
module BoldMarkup {
  import opened Types
  import opened Strings

  /** A `**` begins at index `j`. */
  predicate StarsAt(s: string, j: nat) {
    j + 1 < |s| && s[j] == '*' && s[j + 1] == '*'
  }

  /**
   * Where the lazy `.*?\*\*` starting at `k` finds its closing `**`: the
   * first `**` at or after `k` with no line terminator before it.
   */
  function CloseFrom(s: string, k: nat): (r: Option<nat>)
    ensures r.Some? ==> k <= r.value && r.value + 2 <= |s|
    ensures r.Some? ==> StarsAt(s, r.value)
    ensures r.Some? ==> forall j :: k <= j < r.value ==> !IsLineTerminator(s[j])
    ensures r.Some? ==> forall j :: k <= j < r.value ==> !StarsAt(s, j)
    decreases |s| - k
  {
    if k + 2 > |s| then None
    else if StarsAt(s, k) then Some(k)
    else if IsLineTerminator(s[k]) then None
    else CloseFrom(s, k + 1)
  }

  /** The end of the match of `\*\*.*?\*\*` anchored at `q`, if there is one. */
  function MatchAt(s: string, q: nat): (r: Option<nat>)
    ensures r.Some? ==> q + 4 <= r.value <= |s|
  {
    if StarsAt(s, q) then
      match CloseFrom(s, q + 2)
      case Some(k) => Some(k + 2)
      case None => None
    else None
  }

  /**
   * A bold run: `**`, then characters that are no line terminator and hold
   * no `**`, then `**`. (So its inner text never ends with `*`.)
   */
  predicate BoldRun(t: string) {
    && |t| >= 4
    && t[0] == '*' && t[1] == '*' && t[|t| - 2] == '*' && t[|t| - 1] == '*'
    && (forall j :: 2 <= j < |t| - 2 ==> !IsLineTerminator(t[j]))
    && (forall j :: 2 <= j < |t| - 2 ==> !StarsAt(t, j))
  }

  lemma {:induction false} CloseFromFindsFirst(s: string, start: nat, k: nat)
    requires start <= k && StarsAt(s, k)
    requires forall j :: start <= j < k ==> !IsLineTerminator(s[j])
    requires forall j :: start <= j < k ==> !StarsAt(s, j)
    ensures CloseFrom(s, start) == Some(k)
    decreases k - start
  {
    if start < k {
      CloseFromFindsFirst(s, start + 1, k);
    }
  }

  /** The pattern matches `s[q..e]` exactly when that slice is a bold run. */
  lemma MatchAtIff(s: string, q: nat, e: nat)
    requires q <= e <= |s|
    ensures MatchAt(s, q) == Some(e) <==> BoldRun(s[q..e])
  {
    var t := s[q..e];
    if MatchAt(s, q) == Some(e) {
      var k := CloseFrom(s, q + 2).value;
      assert k == e - 2;
      forall j | 2 <= j < |t| - 2 ensures !IsLineTerminator(t[j]) && !StarsAt(t, j) {
        assert !IsLineTerminator(s[q + j]) && !StarsAt(s, q + j);
        assert t[j] == s[q + j] && t[j + 1] == s[q + j + 1];
      }
    }
    if BoldRun(t) {
      assert s[q] == t[0] && s[q + 1] == t[1] && s[e - 2] == t[|t| - 2] && s[e - 1] == t[|t| - 1];
      forall j | q + 2 <= j < e - 2 ensures !IsLineTerminator(s[j]) && !StarsAt(s, j) {
        assert !IsLineTerminator(t[j - q]) && !StarsAt(t, j - q);
        assert s[j] == t[j - q] && s[j + 1] == t[j - q + 1];
      }
      CloseFromFindsFirst(s, q + 2, e - 2);
    }
  }

  predicate NoMatchAt(s: string, j: nat) {
    MatchAt(s, j).None?
  }

  /** The pattern matches at no position in `[p, q)`. */
  predicate NoMatchIn(s: string, p: nat, q: nat) {
    forall j :: p <= j < q ==> NoMatchAt(s, j)
  }

  /**
   * The split step: from `p` the scan has reached `q` without a match; a
   * match at `q` emits `s[p..q]` and the captured run, and the scan resumes
   * after it; the rest of the text is the last part.
   */
  function SplitFrom(s: string, p: nat, q: nat): seq<string>
    requires p <= q <= |s|
    decreases |s| - q
  {
    if q == |s| then [s[p..]]
    else
      match MatchAt(s, q)
      case None => SplitFrom(s, p, q + 1)
      case Some(e) => [s[p..q], s[q..e]] + SplitFrom(s, e, e)
  }

  /** `text.split(/(\*\*.*?\*\*)/g)` on a non-empty text. */
  function Split(s: string): seq<string> {
    SplitFrom(s, 0, 0)
  }

  function Concat(parts: seq<string>): string {
    if |parts| == 0 then "" else parts[0] + Concat(parts[1..])
  }

  /** `a` is the text at `p`, and the pattern matches nowhere in it. */
  predicate Gap(s: string, p: nat, a: string) {
    p + |a| <= |s| && a == s[p..p + |a|] && NoMatchIn(s, p, p + |a|)
  }

  /** `b` is the text at `q`, and it is exactly the match anchored there. */
  predicate Run(s: string, q: nat, b: string) {
    q + |b| <= |s| && MatchAt(s, q) == Some(q + |b|) && b == s[q..q + |b|]
  }

  /**
   * A reference description of the parts of `s[p..]`: a stretch with no
   * match anywhere in it, then either the end of the text or a match and
   * the parts of what follows it.
   */
  predicate WellSplit(s: string, p: nat, parts: seq<string>)
    decreases |parts|
  {
    && p <= |s| && |parts| > 0 && Gap(s, p, parts[0])
    && if |parts| == 1 then p + |parts[0]| == |s|
       else
         && |parts| >= 3
         && Run(s, p + |parts[0]|, parts[1])
         && WellSplit(s, p + |parts[0]| + |parts[1]|, parts[2..])
  }

  lemma {:induction false} SplitFromWell(s: string, p: nat, q: nat)
    requires p <= q <= |s| && NoMatchIn(s, p, q)
    ensures WellSplit(s, p, SplitFrom(s, p, q))
    decreases |s| - q
  {
    if q < |s| {
      match MatchAt(s, q)
      case None =>
        SplitFromWell(s, p, q + 1);
      case Some(e) =>
        SplitFromWell(s, e, e);
        var parts := SplitFrom(s, p, q);
        assert parts[2..] == SplitFrom(s, e, e);
    }
  }

  /** The split is exactly the reference partition of the text. */
  lemma SplitIsWell(s: string)
    ensures WellSplit(s, 0, Split(s))
  {
    SplitFromWell(s, 0, 0);
  }

  /** The first part and, when there are more, the match after it. */
  lemma WellSplitFirst(s: string, p: nat, parts: seq<string>)
    requires WellSplit(s, p, parts)
    ensures p + |parts[0]| <= |s| && parts[0] == s[p..p + |parts[0]|]
    ensures |parts| == 1 ==> parts == [s[p..]]
    ensures |parts| > 1 ==>
              && |parts| >= 3
              && MatchAt(s, p + |parts[0]|) == Some(p + |parts[0]| + |parts[1]|)
              && parts[1] == s[p + |parts[0]|..p + |parts[0]| + |parts[1]|]
              && WellSplit(s, p + |parts[0]| + |parts[1]|, parts[2..])
              && parts == [parts[0], parts[1]] + parts[2..]
  {
    if |parts| == 1 {
      assert s[p..p + |parts[0]|] == s[p..];
    }
  }

  /** Inside a gap the scan moves on by one position. */
  lemma ScanGap(s: string, p: nat, q: nat, parts: seq<string>)
    requires WellSplit(s, p, parts)
    requires p <= q < p + |parts[0]|
    requires SplitFrom(s, p, q + 1) == parts
    ensures SplitFrom(s, p, q) == parts
  {
    assert NoMatchAt(s, q);
  }

  /** At the end of a gap the scan emits the gap and the match. */
  lemma ScanRun(s: string, p: nat, parts: seq<string>, e: nat)
    requires WellSplit(s, p, parts) && |parts| > 1
    requires e == p + |parts[0]| + |parts[1]|
    ensures |parts| >= 3 && e <= |s| && WellSplit(s, e, parts[2..])
    ensures SplitFrom(s, e, e) == parts[2..] ==> SplitFrom(s, p, p + |parts[0]|) == parts
  {
    WellSplitFirst(s, p, parts);
    var g := p + |parts[0]|;
    assert MatchAt(s, g) == Some(e);
    assert SplitFrom(s, p, g) == [s[p..g], s[g..e]] + SplitFrom(s, e, e);
  }

  /** A last gap runs to the end of the text. */
  lemma ScanEnd(s: string, p: nat, parts: seq<string>)
    requires WellSplit(s, p, parts) && |parts| == 1
    ensures SplitFrom(s, p, p + |parts[0]|) == parts
  {
    WellSplitFirst(s, p, parts);
  }

  /** Scanning from inside the first gap of a reference partition finds that partition. */
  lemma {:induction false} ScanFinds(s: string, p: nat, q: nat, parts: seq<string>)
    requires WellSplit(s, p, parts)
    requires p <= q <= p + |parts[0]|
    ensures SplitFrom(s, p, q) == parts
    decreases |parts|, p + |parts[0]| - q
  {
    if q < p + |parts[0]| {
      ScanFinds(s, p, q + 1, parts);
      ScanGap(s, p, q, parts);
    } else if |parts| > 1 {
      var e := p + |parts[0]| + |parts[1]|;
      ScanRun(s, p, parts, e);
      ScanFinds(s, e, e, parts[2..]);
    } else {
      ScanEnd(s, p, parts);
    }
  }

  /**
   * The reference partition is unique and it is the split: the leftmost
   * match always wins.
   */
  lemma SplitIffWell(s: string, parts: seq<string>)
    ensures WellSplit(s, 0, parts) <==> parts == Split(s)
  {
    SplitIsWell(s);
    if WellSplit(s, 0, parts) {
      ScanFinds(s, 0, 0, parts);
    }
  }

  /** Concatenating the parts gives back the text: nothing is lost or added. */
  lemma {:induction false} SplitFromConcat(s: string, p: nat, q: nat)
    requires p <= q <= |s|
    ensures Concat(SplitFrom(s, p, q)) == s[p..]
    decreases |s| - q
  {
    if q == |s| {
      assert Concat([s[p..]]) == s[p..] + Concat([]);
    } else {
      match MatchAt(s, q)
      case None =>
        SplitFromConcat(s, p, q + 1);
      case Some(e) =>
        SplitFromConcat(s, e, e);
        var rest := SplitFrom(s, e, e);
        var parts := [s[p..q], s[q..e]] + rest;
        assert parts[1..][1..] == rest;
        assert Concat(parts) == s[p..q] + (s[q..e] + Concat(rest));
        assert s[p..] == s[p..q] + (s[q..e] + s[e..]);
    }
  }

  /** The split has an odd number of parts, and every odd-numbered one is a bold run. */
  lemma {:induction false} SplitFromOddRuns(s: string, p: nat, q: nat)
    requires p <= q <= |s|
    ensures |SplitFrom(s, p, q)| % 2 == 1
    ensures forall i :: 0 <= i < |SplitFrom(s, p, q)| && i % 2 == 1 ==> BoldRun(SplitFrom(s, p, q)[i])
    decreases |s| - q
  {
    if q < |s| {
      match MatchAt(s, q)
      case None =>
        SplitFromOddRuns(s, p, q + 1);
      case Some(e) =>
        MatchAtIff(s, q, e);
        SplitFromOddRuns(s, e, e);
        var rest := SplitFrom(s, e, e);
        var parts := [s[p..q], s[q..e]] + rest;
        forall i | 0 <= i < |parts| && i % 2 == 1 ensures BoldRun(parts[i]) {
          if i > 1 {
            assert parts[i] == rest[i - 2];
          }
        }
    }
  }

  /** The round trip of `split` with a capturing group. */
  lemma SplitConcat(s: string)
    ensures Concat(Split(s)) == s
  {
    SplitFromConcat(s, 0, 0);
  }

  datatype Segment = Plain(text: string) | Bold(text: string)

  /** `part.slice(2, -2)`. */
  function Inner(part: string): (r: string)
    ensures |part| >= 4 ==> part == part[..2] + r + part[|part| - 2..]
    ensures |part| < 4 ==> r == ""
  {
    if |part| >= 4 then part[2..|part| - 2] else ""
  }

  predicate HasStars(part: string) {
    |part| >= 2 && part[0] == '*' && part[1] == '*' && part[|part| - 2] == '*' && part[|part| - 1] == '*'
  }

  /** One rendered part: bold when it starts and ends with `**`, the part itself otherwise. */
  function Render(part: string): (r: Segment)
    ensures r.Bold? <==> HasStars(part)
    ensures r.Plain? ==> r.text == part
  {
    if HasStars(part) then Bold(Inner(part)) else Plain(part)
  }

  /** `formatMessage`: no segments for empty text, one per split part otherwise. */
  function Format(text: string): (r: seq<Segment>)
    ensures |text| == 0 ==> r == []
    ensures |text| > 0 ==> |r| == |Split(text)|
    ensures |text| > 0 ==> forall i :: 0 <= i < |r| ==> r[i] == Render(Split(text)[i])
  {
    if |text| == 0 then []
    else
      var parts := Split(text);
      seq(|parts|, i requires 0 <= i < |parts| => Render(parts[i]))
  }

  /** The characters a segment stands for in the text. */
  function Source(seg: Segment): string {
    match seg
    case Plain(t) => t
    case Bold(t) => "**" + t + "**"
  }

  function Unformat(segs: seq<Segment>): string {
    if |segs| == 0 then "" else Source(segs[0]) + Unformat(segs[1..])
  }

  /** Rendering loses nothing except for the two- and three-star parts. */
  lemma RenderSource(part: string)
    requires part != "**" && part != "***"
    ensures Source(Render(part)) == part
  {
  }

  /** A bold run renders as bold text that stands for the whole run. */
  lemma BoldRunRenders(t: string)
    requires BoldRun(t)
    ensures Render(t) == Bold(Inner(t))
    ensures Source(Render(t)) == t
  {
    assert t[..2] == "**" && t[|t| - 2..] == "**";
  }

  /** Every odd-numbered segment is bold, and that bold text sits between `**` in the input. */
  lemma BoldSegments(text: string, i: nat)
    requires |text| > 0 && i < |Split(text)| && i % 2 == 1
    ensures Format(text)[i].Bold?
    ensures Source(Format(text)[i]) == Split(text)[i]
    ensures BoldRun(Split(text)[i])
  {
    var parts := Split(text);
    SplitFromOddRuns(text, 0, 0);
    BoldRunRenders(parts[i]);
  }

  lemma {:induction false} UnformatParts(parts: seq<string>)
    requires forall i :: 0 <= i < |parts| ==> parts[i] != "**" && parts[i] != "***"
    ensures Unformat(seq(|parts|, i requires 0 <= i < |parts| => Render(parts[i]))) == Concat(parts)
    decreases |parts|
  {
    var segs := seq(|parts|, i requires 0 <= i < |parts| => Render(parts[i]));
    if |parts| > 0 {
      var rest := parts[1..];
      UnformatParts(rest);
      assert segs[1..] == seq(|rest|, i requires 0 <= i < |rest| => Render(rest[i]));
      RenderSource(parts[0]);
    }
  }

  /**
   * The segments reproduce the text, unless a part is a bare `**` or
   * `***`, which renders as empty bold text.
   */
  lemma FormatRoundTrip(text: string)
    requires forall i :: 0 <= i < |Split(text)| ==> Split(text)[i] != "**" && Split(text)[i] != "***"
    ensures Unformat(Format(text)) == text
  {
    if |text| > 0 {
      UnformatParts(Split(text));
      SplitConcat(text);
    }
  }

  /** A text that is just two or three stars renders as one empty bold segment. */
  lemma StarsAlone()
    ensures Format("**") == [Bold("")]
    ensures Format("***") == [Bold("")]
  {
    var two := "**";
    assert MatchAt(two, 0).None? by { assert CloseFrom(two, 2).None?; }
    assert MatchAt(two, 1).None?;
    assert Split(two) == SplitFrom(two, 0, 2) == [two];
    var three := "***";
    assert MatchAt(three, 0).None? by { assert CloseFrom(three, 2).None?; }
    assert MatchAt(three, 1).None? by { assert CloseFrom(three, 3).None?; }
    assert MatchAt(three, 2).None?;
    assert Split(three) == SplitFrom(three, 0, 3) == [three];
  }

  lemma SplitExample()
    ensures Split("a **b** c") == ["a ", "**b**", " c"]
  {
    var s := "a **b** c";
    assert MatchAt(s, 0).None? && MatchAt(s, 1).None?;
    assert CloseFrom(s, 4) == Some(5) by { assert CloseFrom(s, 4) == CloseFrom(s, 5); }
    assert MatchAt(s, 2) == Some(7);
    assert MatchAt(s, 7).None? && MatchAt(s, 8).None?;
    assert s[7..] == " c";
    assert SplitFrom(s, 7, 7) == SplitFrom(s, 7, 8) == SplitFrom(s, 7, 9) == [" c"];
    assert s[0..2] == "a " && s[2..7] == "**b**";
    assert SplitFrom(s, 0, 2) == ["a ", "**b**"] + SplitFrom(s, 7, 7);
    assert Split(s) == SplitFrom(s, 0, 1) == SplitFrom(s, 0, 2);
  }

  /** A closed pair of stars in the middle of a line is one bold segment. */
  lemma FormatExample()
    ensures Format("a **b** c") == [Plain("a "), Bold("b"), Plain(" c")]
  {
    SplitExample();
    assert Inner("**b**") == "b";
  }
}
