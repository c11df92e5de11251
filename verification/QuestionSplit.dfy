/**
 * The split of `handle_request` (main.py:127): the first match of
 *   ([^\n]+)\n(1\..+?4\..+?)(?=\n|$)      with re.DOTALL
 * taken as (question, ans). Group 1 is the stem, group 2 the options block.
 * When there is no match, indexing the empty list of matches raises `IndexError`.
 */
module QuestionSplit {
  import opened Wrappers

  /** The position of the first newline at or after `i`, or `|s|` when there is none. */
  function LineEnd(s: string, i: nat): (k: nat)
    requires i <= |s|
    ensures i <= k <= |s|
    ensures k < |s| ==> s[k] == '\n'
    ensures forall m :: i <= m < k ==> s[m] != '\n'
    decreases |s| - i
  {
    if i == |s| || s[i] == '\n' then i else LineEnd(s, i + 1)
  }

  /** `4\.` matches at `j` and at least one character follows it (for the closing `.+?`). */
  predicate FourAt(s: string, j: int)
  {
    0 <= j && j + 2 < |s| && s[j] == '4' && s[j + 1] == '.'
  }

  /** The first position at or after `i` where `4\..` can match. */
  function FindFour(s: string, i: nat): (r: Option<nat>)
    ensures r.Some? ==> i <= r.value && FourAt(s, r.value)
    ensures r.Some? ==> forall j :: i <= j < r.value ==> !FourAt(s, j)
    ensures r.None? ==> forall j :: i <= j ==> !FourAt(s, j)
    decreases |s| - i
  {
    if i + 2 >= |s| then None
    else if s[i] == '4' && s[i + 1] == '.' then Some(i)
    else FindFour(s, i + 1)
  }

  /**
   * The pattern matches `s[p..q]` with group 1 = `s[p..e]` and group 2 = `s[e+1..q]`:
   * a non-empty run without newlines, a newline, `1.`, at least one character, `4.`,
   * at least one character, and then a newline or the end of the input.
   */
  ghost predicate IsMatch(s: string, p: int, e: int, q: int)
  {
    && 0 <= p < e
    && e + 3 <= q <= |s|
    && (forall m :: p <= m < e ==> s[m] != '\n')
    && s[e] == '\n' && s[e + 1] == '1' && s[e + 2] == '.'
    && (exists j :: e + 4 <= j && j + 3 <= q && FourAt(s, j))
    && (q == |s| || s[q] == '\n')
  }

  /**
   * The match the regex engine reports first: the leftmost start, and at that start the
   * shortest match (both `.+?` are lazy, and `[^\n]+` can only end at the next newline).
   */
  ghost predicate FirstMatch(s: string, p: int, e: int, q: int)
  {
    && IsMatch(s, p, e, q)
    && forall p', e', q' :: IsMatch(s, p', e', q') ==> p < p' || (p == p' && e == e' && q <= q')
  }

  /** Tries the line that starts at `p`, then the following lines. Yields (p, e, q). */
  function SplitFrom(s: string, p: nat): (r: Option<(nat, nat, nat)>)
    requires p <= |s|
    ensures r.Some? ==> IsMatch(s, r.value.0, r.value.1, r.value.2)
    decreases |s| - p
  {
    var e := LineEnd(s, p);
    if e == |s| then None
    else if p < e && e + 2 < |s| && s[e + 1] == '1' && s[e + 2] == '.' && FindFour(s, e + 4).Some? then
      var j := FindFour(s, e + 4).value;
      Some((p, e, LineEnd(s, j + 3)))
    else SplitFrom(s, e + 1)
  }

  /** `t` occurs in `s` starting at position `p`. */
  ghost predicate OccursAt(s: string, t: string, p: int)
  {
    0 <= p && p + |t| <= |s| && s[p..p + |t|] == t
  }

  /** `re.findall(...)[0]` as (stem, options), or None where Python raises `IndexError`. */
  function SplitQuestion(s: string): (r: Option<(string, string)>)
    ensures r.Some? ==> |r.value.0| > 0 && forall m :: 0 <= m < |r.value.0| ==> r.value.0[m] != '\n'
    ensures r.Some? ==> |r.value.1| >= 6 && r.value.1[..2] == "1." && exists j :: 3 <= j && FourAt(r.value.1, j)
    ensures r.Some? ==>
      exists p :: OccursAt(s, r.value.0 + "\n" + r.value.1, p) &&
        var end := p + |r.value.0| + 1 + |r.value.1|;
        end == |s| || s[end] == '\n'
  {
    match SplitFrom(s, 0)
    case None => None
    case Some((p, e, q)) =>
      MatchGroups(s, p, e, q);
      Some((s[p..e], s[e + 1..q]))
  }

  /** The two groups of a match, as `SplitQuestion` promises them. */
  lemma MatchGroups(s: string, p: int, e: int, q: int)
    requires IsMatch(s, p, e, q)
    ensures var stem, options := s[p..e], s[e + 1..q];
      && |stem| > 0 && (forall m :: 0 <= m < |stem| ==> stem[m] != '\n')
      && |options| >= 6 && options[..2] == "1." && (exists j :: 3 <= j && FourAt(options, j))
      && OccursAt(s, stem + "\n" + options, p)
      && var end := p + |stem| + 1 + |options|;
         end == |s| || s[end] == '\n'
  {
    var stem, options := s[p..e], s[e + 1..q];
    assert s[p..q] == stem + "\n" + options;
    var j :| e + 4 <= j && j + 3 <= q && FourAt(s, j);
    assert FourAt(options, j - (e + 1));
    assert options[..2] == "1.";
  }

  /**
   * A match that starts in the line beginning at `p` has its stem end at that line's end,
   * so it passes exactly the tests `SplitFrom` makes on that line.
   */
  lemma MatchInLine(s: string, p: nat, p': int, e': int, q': int)
    requires p <= |s|
    requires p <= p' <= LineEnd(s, p)
    requires IsMatch(s, p', e', q')
    ensures e' == LineEnd(s, p) && p' < e'
    ensures e' + 2 < |s| && s[e' + 1] == '1' && s[e' + 2] == '.'
    ensures FindFour(s, e' + 4).Some? && FindFour(s, e' + 4).value + 3 <= q'
  {
    var e := LineEnd(s, p);
    assert s[e'] == '\n';
    if e < |s| {
      assert s[e] == '\n';
    }
    var j :| e' + 4 <= j && j + 3 <= q' && FourAt(s, j);
  }

  lemma {:induction false} SplitFromIsFirstMatch(s: string, p: nat)
    requires p <= |s|
    requires forall p', e', q' :: IsMatch(s, p', e', q') ==> p <= p'
    ensures SplitFrom(s, p).Some? ==>
      FirstMatch(s, SplitFrom(s, p).value.0, SplitFrom(s, p).value.1, SplitFrom(s, p).value.2)
    ensures SplitFrom(s, p).None? ==> forall p', e', q' :: !IsMatch(s, p', e', q')
    decreases |s| - p
  {
    var e := LineEnd(s, p);
    if e == |s| {
      forall p', e', q' ensures !IsMatch(s, p', e', q') {
        if IsMatch(s, p', e', q') {
          assert false;
        }
      }
    } else if p < e && e + 2 < |s| && s[e + 1] == '1' && s[e + 2] == '.' && FindFour(s, e + 4).Some? {
      var j := FindFour(s, e + 4).value;
      var q := LineEnd(s, j + 3);
      forall p', e', q' | IsMatch(s, p', e', q')
        ensures p < p' || (p == p' && e == e' && q <= q')
      {
        if p == p' {
          MatchInLine(s, p, p', e', q');
          if q' < q {
            assert false;
          }
        }
      }
    } else {
      forall p', e', q' | IsMatch(s, p', e', q') ensures e + 1 <= p' {
        if p' <= e {
          MatchInLine(s, p, p', e', q');
          assert false;
        }
      }
      SplitFromIsFirstMatch(s, e + 1);
    }
  }

  /**
   * The split is None precisely when the pattern matches nowhere, and otherwise the groups
   * of the leftmost, shortest match (the one `FirstMatch` argues Python reports first).
   */
  lemma SplitQuestionIsFirstMatch(s: string)
    ensures SplitQuestion(s).None? <==> forall p, e, q :: !IsMatch(s, p, e, q)
    ensures SplitQuestion(s).Some? ==>
      exists p, e, q :: FirstMatch(s, p, e, q) && 0 <= p < e < q <= |s|
        && SplitQuestion(s).value == (s[p..e], s[e + 1..q])
  {
    SplitFromIsFirstMatch(s, 0);
    if SplitFrom(s, 0).Some? {
      var (p, e, q) := SplitFrom(s, 0).value;
      assert FirstMatch(s, p, e, q);
    }
  }

  // Examples

  /** The options end at the first line end after `4.` and the character after it. */
  lemma TrailingLineDropped()
    ensures SplitQuestion("Q\n1.a\n4.b\nc") == Some(("Q", "1.a\n4.b"))
  {
    var s := "Q\n1.a\n4.b\nc";
    assert LineEnd(s, 0) == 1;
    assert FindFour(s, 5) == Some(6);
    assert LineEnd(s, 9) == 9;
    assert SplitFrom(s, 0) == Some((0, 1, 9));
    assert s[0..1] == "Q";
    assert s[2..9] == "1.a\n4.b";
  }

  /** Options with no line before them have no stem: no match. */
  lemma NoStemNoMatch()
    ensures SplitQuestion("1.a\n4.b") == None
  {
    var s := "1.a\n4.b";
    assert LineEnd(s, 0) == 3;
    assert LineEnd(s, 4) == 7;
  }

  /** A one-line query, such as the sample request at main.py:209, has no match. */
  lemma OneLineNoMatch(s: string)
    requires '\n' !in s
    ensures SplitQuestion(s) == None
  {
  }
}
