/**
 * The string operations the app applies to user input and to backend text:
 * JavaScript's String.prototype.trim, a case fold, substring search, and the
 * paragraph splitter used on the letter body (split on runs of newlines,
 * trim each piece, drop the empty ones).
 */
module Text {

  /** The characters JavaScript's trim removes: WhiteSpace and LineTerminator. */
  predicate IsSpace(c: char) {
    var n := c as int;
    n == 0x09 || n == 0x0A || n == 0x0B || n == 0x0C || n == 0x0D || n == 0x20 ||
    n == 0xA0 || n == 0x1680 || (0x2000 <= n <= 0x200A) || n == 0x2028 ||
    n == 0x2029 || n == 0x202F || n == 0x205F || n == 0x3000 || n == 0xFEFF
  }

  predicate AllSpace(s: string) {
    forall i :: 0 <= i < |s| ==> IsSpace(s[i])
  }

  /** No whitespace at either end. */
  predicate IsTrimmed(s: string) {
    s == [] || (!IsSpace(s[0]) && !IsSpace(s[|s| - 1]))
  }

  /** The end of the run of whitespace that starts at i. */
  function LeadingSpace(s: string, i: nat): (j: nat)
    requires i <= |s|
    ensures i <= j <= |s|
    ensures forall k :: i <= k < j ==> IsSpace(s[k])
    ensures j < |s| ==> !IsSpace(s[j])
    decreases |s| - i
  {
    if i < |s| && IsSpace(s[i]) then LeadingSpace(s, i + 1) else i
  }

  /** The start of the run of whitespace that ends at j, going back no further than lo. */
  function TrailingSpace(s: string, lo: nat, j: nat): (e: nat)
    requires lo <= j <= |s|
    ensures lo <= e <= j
    ensures forall k :: e <= k < j ==> IsSpace(s[k])
    ensures e > lo ==> !IsSpace(s[e - 1])
    decreases j
  {
    if j > lo && IsSpace(s[j - 1]) then TrailingSpace(s, lo, j - 1) else j
  }

  /** String.prototype.trim: the infix of s left once whitespace is cut from both ends. */
  function Trim(s: string): (r: string)
    ensures IsTrimmed(r)
    ensures exists i :: 0 <= i <= |s| - |r| && s[i..i + |r|] == r
                        && AllSpace(s[..i]) && AllSpace(s[i + |r|..])
  {
    var a := LeadingSpace(s, 0);
    var b := TrailingSpace(s, a, |s|);
    SpaceAround(s, a, b);
    s[a..b]
  }

  lemma SpaceAround(s: string, a: nat, b: nat)
    requires a <= b <= |s|
    requires forall k :: 0 <= k < a ==> IsSpace(s[k])
    requires forall k :: b <= k < |s| ==> IsSpace(s[k])
    ensures s[a..a + (b - a)] == s[a..b] && AllSpace(s[..a]) && AllSpace(s[b..])
  {
    assert forall k :: 0 <= k < |s[b..]| ==> s[b..][k] == s[b + k];
  }

  /** The input only whitespace (or empty): JavaScript's `!s.trim()`. */
  predicate IsBlank(s: string) {
    Trim(s) == []
  }

  lemma BlankIffAllSpace(s: string)
    ensures IsBlank(s) <==> AllSpace(s)
  {
    var a := LeadingSpace(s, 0);
    var b := TrailingSpace(s, a, |s|);
    assert Trim(s) == s[a..b];
    if AllSpace(s) {
      assert a == |s|;
    }
    if a == b {
      forall k | 0 <= k < |s| ensures IsSpace(s[k]) {
        if k < a {} else {}
      }
    }
  }

  /** Trimming is idempotent: a trimmed string is its own trim. */
  lemma TrimOfTrimmed(s: string)
    requires IsTrimmed(s)
    ensures Trim(s) == s
  {
    assert LeadingSpace(s, 0) == 0;
    assert TrailingSpace(s, 0, |s|) == |s|;
  }

  /** The non-whitespace characters of s, in order. */
  function NonSpace(s: string): (r: string)
    ensures |r| <= |s|
  {
    if s == [] then []
    else (if IsSpace(s[0]) then [] else [s[0]]) + NonSpace(s[1..])
  }

  lemma {:induction false} NonSpaceAppend(a: string, b: string)
    ensures NonSpace(a + b) == NonSpace(a) + NonSpace(b)
  {
    if a == [] {
      assert a + b == b;
    } else {
      assert (a + b)[0] == a[0];
      assert (a + b)[1..] == a[1..] + b;
      NonSpaceAppend(a[1..], b);
    }
  }

  lemma {:induction false} NonSpaceOfSpaces(s: string)
    requires AllSpace(s)
    ensures NonSpace(s) == []
  {
    if s != [] {
      assert IsSpace(s[0]);
      NonSpaceOfSpaces(s[1..]);
    }
  }

  /** Trimming removes whitespace only: every visible character survives, in order. */
  lemma NonSpaceOfTrim(s: string)
    ensures NonSpace(Trim(s)) == NonSpace(s)
  {
    var a := LeadingSpace(s, 0);
    var b := TrailingSpace(s, a, |s|);
    SpaceAround(s, a, b);
    assert s == s[..a] + s[a..b] + s[b..];
    NonSpaceAppend(s[..a] + s[a..b], s[b..]);
    NonSpaceAppend(s[..a], s[a..b]);
    NonSpaceOfSpaces(s[..a]);
    NonSpaceOfSpaces(s[b..]);
  }

  // ---------------------------------------------------------------------------
  // Case folding and substring search (`toLowerCase().includes(...)`)

  /** Lower-cases the ASCII letters A-Z and leaves every other character alone. */
  function LowerChar(c: char): (r: char)
    ensures 'A' <= c <= 'Z' ==> r as int == c as int + 32
    ensures !('A' <= c <= 'Z') ==> r == c
  {
    if 'A' <= c <= 'Z' then (c as int + 32) as char else c
  }

  predicate IsUpper(c: char) {
    'A' <= c <= 'Z'
  }

  /**
   * `toLowerCase` on ASCII: no capital letter is left, every capital becomes
   * its small letter, and every other character is kept in place.
   */
  function ToLower(s: string): (r: string)
    ensures |r| == |s|
    ensures forall i :: 0 <= i < |r| ==> !IsUpper(r[i])
    ensures forall i :: 0 <= i < |s| && IsUpper(s[i]) ==> r[i] as int == s[i] as int + 32
    ensures forall i :: 0 <= i < |s| && !IsUpper(s[i]) ==> r[i] == s[i]
  {
    seq(|s|, i requires 0 <= i < |s| => LowerChar(s[i]))
  }

  /** Lower-casing twice is lower-casing once. */
  lemma ToLowerIdempotent(s: string)
    ensures ToLower(ToLower(s)) == ToLower(s)
  {
    var r := ToLower(s);
    assert forall i :: 0 <= i < |r| ==> ToLower(r)[i] == r[i];
  }

  /** Text already without capitals is its own lower case. */
  lemma ToLowerOfLower(s: string)
    requires forall i :: 0 <= i < |s| ==> !IsUpper(s[i])
    ensures ToLower(s) == s
  {
  }

  /** `s.includes(sub)`: sub occurs in s at some position. */
  predicate Contains(s: string, sub: string) {
    exists i :: 0 <= i <= |s| - |sub| && OccursAt(s, sub, i)
  }

  predicate OccursAt(s: string, sub: string, i: int)
    requires 0 <= i <= |s| - |sub|
  {
    s[i..i + |sub|] == sub
  }

  // ---------------------------------------------------------------------------
  // The letter-body paragraph splitter

  /** The index of the first newline in s, or |s| when there is none. */
  function FirstNewline(s: string): (e: nat)
    ensures e <= |s|
    ensures forall k :: 0 <= k < e ==> s[k] != '\n'
    ensures e < |s| ==> s[e] == '\n'
    decreases |s|
  {
    if s == [] || s[0] == '\n' then 0 else 1 + FirstNewline(s[1..])
  }

  /** The index just past the run of newlines that starts at e. */
  function RunEnd(s: string, e: nat): (f: nat)
    requires e <= |s|
    ensures e <= f <= |s|
    ensures forall k :: e <= k < f ==> s[k] == '\n'
    ensures f < |s| ==> s[f] != '\n'
    decreases |s| - e
  {
    if e < |s| && s[e] == '\n' then RunEnd(s, e + 1) else e
  }

  /** s with every newline removed. */
  function WithoutNewlines(s: string): (r: string)
    ensures '\n' !in r
  {
    if s == [] then []
    else (if s[0] == '\n' then [] else [s[0]]) + WithoutNewlines(s[1..])
  }

  lemma {:induction false} WithoutNewlinesAppend(a: string, b: string)
    ensures WithoutNewlines(a + b) == WithoutNewlines(a) + WithoutNewlines(b)
  {
    if a == [] {
      assert a + b == b;
    } else {
      assert (a + b)[0] == a[0];
      assert (a + b)[1..] == a[1..] + b;
      WithoutNewlinesAppend(a[1..], b);
    }
  }

  lemma {:induction false} WithoutNewlinesOfFree(s: string)
    requires '\n' !in s
    ensures WithoutNewlines(s) == s
  {
    if s != [] {
      WithoutNewlinesOfFree(s[1..]);
    }
  }

  lemma {:induction false} WithoutNewlinesOfRun(s: string)
    requires forall k :: 0 <= k < |s| ==> s[k] == '\n'
    ensures WithoutNewlines(s) == []
  {
    if s != [] {
      WithoutNewlinesOfRun(s[1..]);
    }
  }

  function Concat(ps: seq<string>): string {
    if ps == [] then [] else ps[0] + Concat(ps[1..])
  }

  lemma {:induction false} ConcatAppend(a: seq<string>, b: seq<string>)
    ensures Concat(a + b) == Concat(a) + Concat(b)
  {
    if a == [] {
      assert a + b == b;
    } else {
      assert (a + b)[0] == a[0];
      assert (a + b)[1..] == a[1..] + b;
      ConcatAppend(a[1..], b);
    }
  }

  /**
   * `s.split(/\n+/)`: the pieces between maximal runs of newlines. The pieces
   * hold no newline, every piece but the first and the last is non-empty, and
   * the first is empty exactly when s is empty or starts with a newline.
   */
  function SplitNewlineRuns(s: string): (r: seq<string>)
    ensures |r| >= 1
    ensures forall k :: 0 <= k < |r| ==> '\n' !in r[k]
    ensures forall k :: 0 < k < |r| - 1 ==> r[k] != []
    ensures r[0] == [] <==> (s == [] || s[0] == '\n')
    decreases |s|
  {
    var e := FirstNewline(s);
    if e == |s| then
      [s]
    else
      var f := RunEnd(s, e);
      var rest := SplitNewlineRuns(s[f..]);
      assert f < |s| ==> rest[0] != [];
      [s[..e]] + rest
  }

  lemma ConcatCons(x: string, rest: seq<string>)
    ensures Concat([x] + rest) == x + Concat(rest)
  {
    assert ([x] + rest)[1..] == rest;
  }

  lemma WithoutNewlinesParts(a: string, b: string, c: string)
    requires '\n' !in a
    requires forall k :: 0 <= k < |b| ==> b[k] == '\n'
    ensures WithoutNewlines(a + b + c) == a + WithoutNewlines(c)
  {
    WithoutNewlinesAppend(a + b, c);
    WithoutNewlinesAppend(a, b);
    WithoutNewlinesOfFree(a);
    WithoutNewlinesOfRun(b);
  }

  /** Taking the newlines out of a newline-free head, a run of newlines and a tail. */
  lemma WithoutNewlinesAtRun(s: string, e: nat, f: nat)
    requires e <= f <= |s|
    requires forall k :: 0 <= k < e ==> s[k] != '\n'
    requires forall k :: e <= k < f ==> s[k] == '\n'
    ensures WithoutNewlines(s) == s[..e] + WithoutNewlines(s[f..])
  {
    var a, b, c := s[..e], s[e..f], s[f..];
    assert '\n' !in a by {
      assert forall k :: 0 <= k < |a| ==> a[k] == s[k];
    }
    assert forall k :: 0 <= k < |b| ==> b[k] == s[e + k];
    assert s == a + b + c;
    WithoutNewlinesParts(a, b, c);
  }

  /** Together the pieces are s with its newlines taken out. */
  lemma {:induction false} SplitNewlineRunsConcat(s: string)
    ensures Concat(SplitNewlineRuns(s)) == WithoutNewlines(s)
    decreases |s|
  {
    var e := FirstNewline(s);
    if e == |s| {
      ConcatCons(s, []);
      WithoutNewlinesOfFree(s);
    } else {
      var f := RunEnd(s, e);
      SplitNewlineRunsConcat(s[f..]);
      WithoutNewlinesAtRun(s, e, f);
      ConcatCons(s[..e], SplitNewlineRuns(s[f..]));
    }
  }

  /** A text without newlines is a single piece. */
  lemma SplitNewlineRunsOfLine(s: string)
    requires '\n' !in s
    ensures SplitNewlineRuns(s) == [s]
  {
    assert FirstNewline(s) == |s|;
  }

  /**
   * Where the text is cut: a newline-free head followed by a whole run of
   * newlines is the first piece, and the split goes on after the run.
   */
  lemma SplitNewlineRunsCut(p: string, run: string, q: string)
    requires '\n' !in p
    requires run != [] && forall k :: 0 <= k < |run| ==> run[k] == '\n'
    requires q == [] || q[0] != '\n'
    ensures SplitNewlineRuns(p + run + q) == [p] + SplitNewlineRuns(q)
  {
    var s := p + run + q;
    var e, f := |p|, |p| + |run|;
    assert forall k :: 0 <= k < e ==> s[k] == p[k];
    assert s[e] == run[0];
    assert FirstNewline(s) == e;
    assert forall k :: e <= k < f ==> s[k] == run[k - e];
    assert f < |s| ==> s[f] == q[0];
    assert RunEnd(s, e) == f;
    assert s[..e] == p;
    assert s[f..] == q;
  }

  function TrimAll(ps: seq<string>): (r: seq<string>)
    ensures |r| == |ps|
    ensures forall k :: 0 <= k < |r| ==> r[k] == Trim(ps[k])
  {
    if ps == [] then [] else [Trim(ps[0])] + TrimAll(ps[1..])
  }

  /** `filter(p => p.length > 0)`: the non-empty pieces, all of them, and nothing else. */
  function DropEmpty(ps: seq<string>): (r: seq<string>)
    ensures |r| <= |ps|
    ensures forall k :: 0 <= k < |r| ==> r[k] != [] && r[k] in ps
    ensures forall p :: p in ps && p != [] ==> p in r
  {
    if ps == [] then []
    else (if ps[0] == [] then [] else [ps[0]]) + DropEmpty(ps[1..])
  }

  /** The filter keeps order: filtering a concatenation concatenates the filtered parts. */
  lemma {:induction false} DropEmptyAppend(ps: seq<string>, qs: seq<string>)
    ensures DropEmpty(ps + qs) == DropEmpty(ps) + DropEmpty(qs)
  {
    if ps == [] {
      assert ps + qs == qs;
    } else {
      assert (ps + qs)[0] == ps[0];
      assert (ps + qs)[1..] == ps[1..] + qs;
      DropEmptyAppend(ps[1..], qs);
    }
  }

  /**
   * The letter body as paragraphs: `body.split(/\n+/).map(p => p.trim()).filter(p => p.length > 0)`.
   */
  function Paragraphs(body: string): seq<string> {
    DropEmpty(TrimAll(SplitNewlineRuns(body)))
  }

  /** A line without newlines is one paragraph, its trim, unless it is blank. */
  lemma ParagraphsOfLine(s: string)
    requires '\n' !in s
    ensures Paragraphs(s) == if IsBlank(s) then [] else [Trim(s)]
  {
    SplitNewlineRunsOfLine(s);
    assert TrimAll([s]) == [Trim(s)];
  }

  /** The paragraph split cuts at every run of newlines: the head line's trim, if not blank, then the rest. */
  lemma ParagraphsCut(p: string, run: string, q: string)
    requires '\n' !in p
    requires run != [] && forall k :: 0 <= k < |run| ==> run[k] == '\n'
    requires q == [] || q[0] != '\n'
    ensures Paragraphs(p + run + q) == (if IsBlank(p) then [] else [Trim(p)]) + Paragraphs(q)
  {
    SplitNewlineRunsCut(p, run, q);
    var rest := SplitNewlineRuns(q);
    assert TrimAll([p] + rest) == [Trim(p)] + TrimAll(rest) by {
      assert ([p] + rest)[1..] == rest;
    }
    DropEmptyAppend([Trim(p)], TrimAll(rest));
    assert DropEmpty([Trim(p)]) == if IsBlank(p) then [] else [Trim(p)] by {
      assert [Trim(p)][1..] == [];
    }
  }

  /** One newline separates two paragraphs: "a\nb" gives ["a", "b"]. */
  lemma ParagraphsTwoLines()
    ensures Paragraphs("a\nb") == ["a", "b"]
  {
    var a, nl, b: string := ['a'], ['\n'], ['b'];
    assert "a\nb" == a + nl + b;
    assert !IsSpace(a[0]) && !IsSpace(b[0]);
    TwoLines(a, nl, b);
    assert Trim(a) == a by { TrimOfVisibleChar('a'); }
    assert Trim(b) == b by { TrimOfVisibleChar('b'); }
  }

  lemma TwoLines(a: string, nl: string, b: string)
    requires '\n' !in a && '\n' !in b && b != [] && b[0] != '\n'
    requires nl != [] && forall k :: 0 <= k < |nl| ==> nl[k] == '\n'
    requires !AllSpace(a) && !AllSpace(b)
    ensures Paragraphs(a + nl + b) == [Trim(a), Trim(b)]
  {
    BlankIffAllSpace(a);
    BlankIffAllSpace(b);
    ParagraphsCut(a, nl, b);
    ParagraphsOfLine(b);
  }

  lemma TrimKeepsNewlineFree(q: string)
    requires '\n' !in q
    ensures '\n' !in Trim(q)
  {
    var a := LeadingSpace(q, 0);
    var b := TrailingSpace(q, a, |q|);
    assert forall k :: 0 <= k < b - a ==> q[a..b][k] == q[a + k];
  }

  /** Every paragraph is non-empty, has no whitespace at either end, and holds no newline. */
  lemma ParagraphsWellFormed(body: string)
    ensures forall p :: p in Paragraphs(body) ==>
      p != [] && !IsSpace(p[0]) && !IsSpace(p[|p| - 1]) && '\n' !in p
  {
    var pieces := SplitNewlineRuns(body);
    var trimmed := TrimAll(pieces);
    forall p | p in Paragraphs(body)
      ensures p != [] && IsTrimmed(p) && '\n' !in p
    {
      var j :| 0 <= j < |trimmed| && trimmed[j] == p;
      TrimKeepsNewlineFree(pieces[j]);
    }
  }

  lemma {:induction false} ConcatDropEmpty(ps: seq<string>)
    ensures Concat(DropEmpty(ps)) == Concat(ps)
  {
    if ps != [] {
      ConcatDropEmpty(ps[1..]);
      if ps[0] != [] {
        assert DropEmpty(ps) == [ps[0]] + DropEmpty(ps[1..]);
        ConcatAppend([ps[0]], DropEmpty(ps[1..]));
        assert [ps[0]][1..] == [];
        assert Concat([ps[0]]) == ps[0] + Concat([]);
      } else {
        assert DropEmpty(ps) == DropEmpty(ps[1..]);
        assert Concat(ps) == ps[0] + Concat(ps[1..]) == Concat(ps[1..]);
      }
    }
  }

  lemma {:induction false} NonSpaceConcatTrimAll(ps: seq<string>)
    ensures NonSpace(Concat(TrimAll(ps))) == NonSpace(Concat(ps))
  {
    if ps != [] {
      NonSpaceConcatTrimAll(ps[1..]);
      assert TrimAll(ps)[1..] == TrimAll(ps[1..]);
      NonSpaceAppend(Trim(ps[0]), Concat(TrimAll(ps[1..])));
      NonSpaceAppend(ps[0], Concat(ps[1..]));
      NonSpaceOfTrim(ps[0]);
    }
  }

  lemma {:induction false} NonSpaceWithoutNewlines(s: string)
    ensures NonSpace(WithoutNewlines(s)) == NonSpace(s)
  {
    if s != [] {
      NonSpaceWithoutNewlines(s[1..]);
      NonSpaceAppend(if s[0] == '\n' then [] else [s[0]], WithoutNewlines(s[1..]));
    }
  }

  /** No visible character of the body is lost or reordered by the paragraph splitter. */
  lemma ParagraphsKeepText(body: string)
    ensures NonSpace(Concat(Paragraphs(body))) == NonSpace(body)
  {
    var pieces := SplitNewlineRuns(body);
    SplitNewlineRunsConcat(body);
    ConcatDropEmpty(TrimAll(pieces));
    NonSpaceConcatTrimAll(pieces);
    NonSpaceWithoutNewlines(body);
  }

  lemma SplitExample()
    ensures SplitNewlineRuns("a\n\nb\n") == ["a", "b", []]
  {
    var s := "a\n\nb\n";
    assert FirstNewline(s[2..]) == 0;
    assert FirstNewline(s[1..]) == 0;
    assert FirstNewline(s) == 1;
    assert RunEnd(s, 3) == 3;
    assert RunEnd(s, 1) == 3;
    var t := s[3..];
    assert t == "b\n";
    assert FirstNewline(t[1..]) == 0;
    assert FirstNewline(t) == 1;
    assert RunEnd(t, 2) == 2;
    assert RunEnd(t, 1) == 2;
    assert t[2..] == [];
    assert FirstNewline(t[2..]) == 0;
    assert SplitNewlineRuns(t[2..]) == [[]];
    assert t[..1] == "b";
    assert SplitNewlineRuns(t) == [t[..1]] + SplitNewlineRuns(t[2..]) == ["b", []];
    assert s[..1] == "a";
  }

  lemma TrimOfVisibleChar(c: char)
    requires !IsSpace(c)
    ensures Trim([c]) == [c]
  {
    TrimOfTrimmed([c]);
  }

  lemma TrimAllExample()
    ensures TrimAll(["a", "b", []]) == ["a", "b", []]
  {
    var x: seq<string> := ["a", "b", []];
    var r := TrimAll(x);
    assert |r| == 3;
    assert r[0] == "a" by { TrimOfVisibleChar('a'); }
    assert r[1] == "b" by { TrimOfVisibleChar('b'); }
    assert r[2] == [];
  }

  lemma DropEmptyExample()
    ensures DropEmpty(["a", "b", []]) == ["a", "b"]
  {
    var x: seq<string> := ["a", "b", []];
    assert x[1..][1..] == [[]];
    assert DropEmpty([[]]) == [];
    assert DropEmpty(x[1..]) == ["b"];
  }

  /** The example the letter view relies on: "a\n\nb\n" gives exactly ["a", "b"]. */
  lemma ParagraphsExample()
    ensures Paragraphs("a\n\nb\n") == ["a", "b"]
  {
    SplitExample();
    TrimAllExample();
    DropEmptyExample();
  }
}
