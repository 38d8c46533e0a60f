/** The calorie inventory of the elves: one number per line, each elf's
    numbers in a block, blocks separated by empty lines. `sum` turns the
    inventory into one total per elf; the two parts select the largest total
    and the sum of the three largest. */
module CalorieCounting {
  import opened Prelude
  import opened Text
  import opened Sorting

  /** The error `sum` passes on with `?`: a line that is not a `u32`. Which
      way the parse failed is not kept. */
  datatype ParseIntError = ParseIntError

  // ---------------------------------------------------------------------
  // The grouping loop and its specification

  /** What `sum` makes of one line: an empty line, a number of calories (the
      trimmed line read as a `u32`), or a line that does not parse. */
  datatype LineKind = Blank | Cals(value: nat) | NotANumber

  function Classify(line: string): (k: LineKind)
    ensures k == Blank <==> line == ""
    ensures k == NotANumber <==> line != "" && ParseU32(Trim(line)).None?
    ensures k.Cals? ==> Some(k.value) == ParseU32(Trim(line))
  {
    if line == "" then Blank
    else
      match ParseU32(Trim(line))
      case None => NotANumber
      case Some(n) => Cals(n)
  }

  /** The kind of every line, in order. */
  function Kinds(lines: seq<string>): (r: seq<LineKind>)
    ensures |r| == |lines|
  {
    if |lines| == 0 then [] else Kinds(lines[..|lines| - 1]) + [Classify(lines[|lines| - 1])]
  }

  lemma {:induction false} KindAt(lines: seq<string>, i: nat)
    requires i < |lines|
    ensures Kinds(lines)[i] == Classify(lines[i])
  {
    if i < |lines| - 1 {
      KindAt(lines[..|lines| - 1], i);
    }
  }

  /** Every line is empty or holds a number. */
  predicate AllParse(ks: seq<LineKind>) {
    forall k | 0 <= k < |ks| :: !ks[k].NotANumber?
  }

  /** The number of empty lines. */
  function Blanks(ks: seq<LineKind>): nat {
    if |ks| == 0 then 0
    else Blanks(ks[..|ks| - 1]) + (if ks[|ks| - 1] == Blank then 1 else 0)
  }

  /** The calories a line holds: none unless it is a number. */
  function Value(k: LineKind): nat {
    if k.Cals? then k.value else 0
  }

  /** All the calories of the inventory, whatever block they are in. */
  function Calories(ks: seq<LineKind>): nat {
    if |ks| == 0 then 0 else Calories(ks[..|ks| - 1]) + Value(ks[|ks| - 1])
  }

  /** The total of every block, the last one included whether or not an
      empty line closes it: one more block than there are empty lines. */
  function Blocks(ks: seq<LineKind>): (r: seq<nat>)
    ensures |r| == Blanks(ks) + 1
  {
    if |ks| == 0 then [0]
    else
      var b := Blocks(ks[..|ks| - 1]);
      var last := ks[|ks| - 1];
      if last == Blank then b + [0]
      else b[..|b| - 1] + [b[|b| - 1] + Value(last)]
  }

  /** The total of the block still open at the end of the inventory. */
  function OpenBlock(ks: seq<LineKind>): nat {
    var b := Blocks(ks);
    b[|b| - 1]
  }

  /** What `sum` returns for a classified inventory: an error if a line does
      not parse; otherwise one total per block an empty line closes, then the
      open block's total if it is not zero. */
  function Group(ks: seq<LineKind>): (r: Result<seq<nat>, ParseIntError>)
    ensures r.Err? <==> exists k | 0 <= k < |ks| :: ks[k] == NotANumber
  {
    if !AllParse(ks) then Err(ParseIntError)
    else
      var b := Blocks(ks);
      Ok(b[..|b| - 1] + if b[|b| - 1] > 0 then [b[|b| - 1]] else [])
  }

  /** What `sum` returns for an inventory. */
  function Elves(lines: seq<string>): (r: Result<seq<nat>, ParseIntError>)
    ensures r.Err? <==> exists k | 0 <= k < |lines| :: Kinds(lines)[k] == NotANumber
  {
    var ks := Kinds(lines);
    assert forall k | 0 <= k < |lines| :: Kinds(lines)[k] == ks[k];
    Group(ks)
  }

  /** One step of `sum`'s loop: an empty line closes the open block and
      opens an empty one; a number adds to the open block. */
  lemma ScanStep(ks: seq<LineKind>, i: nat, closed: seq<nat>, open: nat)
    requires i < |ks|
    requires AllParse(ks[..i]) && closed + [open] == Blocks(ks[..i])
    ensures ks[i] != NotANumber ==> AllParse(ks[..i + 1])
    ensures ks[i] == Blank ==> Blocks(ks[..i + 1]) == (closed + [open]) + [0]
    ensures ks[i] != Blank ==> Blocks(ks[..i + 1]) == closed + [open + Value(ks[i])]
  {
    assert ks[..i + 1][..i] == ks[..i];
    assert (closed + [open])[..|closed|] == closed;
    assert forall k | 0 <= k < i :: ks[..i + 1][k] == ks[..i][k];
  }

  /** After the loop of `sum`: the open block is kept only if non-zero. */
  lemma ScanEnd(ks: seq<LineKind>, closed: seq<nat>, open: nat)
    requires AllParse(ks) && closed + [open] == Blocks(ks)
    ensures open > 0 ==> Group(ks) == Ok(closed + [open])
    ensures open == 0 ==> Group(ks) == Ok(closed)
  {
    var b := Blocks(ks);
    assert b[..|b| - 1] == closed;
    assert closed + [] == closed;
  }

  /** One line of `sum`'s loop: an empty line pushes the running total and
      resets it; any other line is trimmed and parsed, and stops the scan if
      it is not a number, else is added to the running total. */
  method ScanLine(lines: seq<string>, i: nat, elves: seq<nat>, sum: nat)
    returns (ok: bool, elves': seq<nat>, sum': nat)
    requires i < |lines|
    ensures ok <==> Kinds(lines)[i] != NotANumber
    ensures Kinds(lines)[i] == Blank ==> elves' == elves + [sum] && sum' == 0
    ensures Kinds(lines)[i].Cals? ==> elves' == elves && sum' == sum + Kinds(lines)[i].value
  {
    KindAt(lines, i);
    var line := lines[i];
    if line == "" {
      return true, elves + [sum], 0;
    }
    var cals := ParseU32(Trim(line));
    if cals.None? {
      return false, elves, sum;
    }
    return true, elves, sum + cals.value;
  }

  /** `sum`: scan the lines, one `ScanLine` each, stopping at the first that
      does not parse; then push the open total unless it is zero. */
  method Sum(lines: seq<string>) returns (r: Result<seq<nat>, ParseIntError>)
    ensures r == Elves(lines)
  {
    ghost var ks := Kinds(lines);
    var elves: seq<nat> := [];
    var sum: nat := 0;
    for i := 0 to |lines|
      invariant AllParse(ks[..i])
      invariant elves + [sum] == Blocks(ks[..i])
    {
      ScanStep(ks, i, elves, sum);
      var ok;
      ok, elves, sum := ScanLine(lines, i, elves, sum);
      if !ok {
        return Err(ParseIntError);
      }
    }
    assert ks[..|lines|] == ks;
    ScanEnd(ks, elves, sum);
    if sum > 0 {
      elves := elves + [sum];
    }
    return Ok(elves);
  }

  /** `sum` fails exactly when some non-empty line, once trimmed, is not a
      `u32`. */
  lemma ElvesFailIff(lines: seq<string>)
    ensures Elves(lines).Err? <==>
            exists k | 0 <= k < |lines| :: lines[k] != "" && ParseU32(Trim(lines[k])).None?
  {
    var ks := Kinds(lines);
    forall k | 0 <= k < |lines| ensures ks[k] == Classify(lines[k]) {
      KindAt(lines, k);
    }
  }

  // ---------------------------------------------------------------------
  // What the grouping computes

  /** The block totals add up to all the calories of the inventory. */
  lemma {:induction false} BlocksSum(ks: seq<LineKind>)
    ensures SeqSum(Blocks(ks)) == Calories(ks)
  {
    if |ks| > 0 {
      var init := ks[..|ks| - 1];
      var b := Blocks(init);
      BlocksSum(init);
      if ks[|ks| - 1] == Blank {
        SeqSumAppend(b, [0]);
      } else {
        var v := Value(ks[|ks| - 1]);
        assert b == b[..|b| - 1] + [b[|b| - 1]];
        SeqSumAppend(b[..|b| - 1], [b[|b| - 1]]);
        SeqSumAppend(b[..|b| - 1], [b[|b| - 1] + v]);
      }
    }
  }

  /** The elves' totals add up to all the calories, and there is one elf per
      empty line plus one for a non-zero block left open at the end. */
  lemma GroupSumAndCount(ks: seq<LineKind>)
    requires Group(ks).Ok?
    ensures SeqSum(Group(ks).value) == Calories(ks)
    ensures |Group(ks).value| == Blanks(ks) + (if OpenBlock(ks) > 0 then 1 else 0)
  {
    var b := Blocks(ks);
    BlocksSum(ks);
    assert b == b[..|b| - 1] + [b[|b| - 1]];
    SeqSumAppend(b[..|b| - 1], [b[|b| - 1]]);
    SeqSumAppend(b[..|b| - 1], if b[|b| - 1] > 0 then [b[|b| - 1]] else []);
  }

  /** No empty line among `ks`. */
  predicate NoBlank(ks: seq<LineKind>) {
    forall k | 0 <= k < |ks| :: ks[k] != Blank
  }

  /** Lines without an empty one all add to the block that is open. */
  lemma {:induction false} BlocksExtend(p: seq<LineKind>, q: seq<LineKind>)
    requires NoBlank(q)
    ensures Blocks(p + q) ==
            Blocks(p)[..|Blocks(p)| - 1] + [Blocks(p)[|Blocks(p)| - 1] + Calories(q)]
  {
    if |q| == 0 {
      assert p + q == p;
      var b := Blocks(p);
      assert b == b[..|b| - 1] + [b[|b| - 1]];
    } else {
      var init := q[..|q| - 1];
      assert (p + q)[..|p + q| - 1] == p + init;
      assert (p + q)[|p + q| - 1] == q[|q| - 1];
      BlocksExtend(p, init);
    }
  }

  /** An empty line closes the open block and starts a new one: the blocks
      of `p`, an empty line, then lines `q` without one, are the blocks of
      `p` followed by the calories of `q`. */
  lemma BlocksAfterBlank(p: seq<LineKind>, q: seq<LineKind>)
    requires NoBlank(q)
    ensures Blocks(p + [Blank] + q) == Blocks(p) + [Calories(q)]
  {
    assert (p + [Blank])[..|p|] == p;
    BlocksExtend(p + [Blank], q);
  }

  /** An inventory without an empty line is a single block. */
  lemma OneBlock(q: seq<LineKind>)
    requires NoBlank(q)
    ensures Blocks(q) == [Calories(q)]
  {
    assert [] + q == q;
    BlocksExtend([], q);
  }

  /** An empty line pushes the open block's total and opens a new block at
      zero. */
  lemma BlankCloses(ks: seq<LineKind>)
    ensures Blocks(ks + [Blank]) == Blocks(ks) + [0]
  {
    assert (ks + [Blank])[..|ks|] == ks;
  }

  /** Two empty lines in a row close an elf with zero calories. */
  lemma ConsecutiveBlanks(p: seq<LineKind>)
    requires AllParse(p)
    ensures Group(p + [Blank, Blank]) == Ok(Blocks(p) + [0])
  {
    var q := p + [Blank, Blank];
    assert AllParse(q) by {
      assert forall k | 0 <= k < |p| :: q[k] == p[k];
    }
    assert q == (p + [Blank]) + [Blank];
    BlankCloses(p);
    BlankCloses(p + [Blank]);
    var b := Blocks(q);
    assert b[..|b| - 1] + [] == Blocks(p) + [0];
  }

  /** A final empty line changes nothing when the last block is non-zero:
      the block missing its end of line is still counted; when the last
      block is zero, the final empty line adds an elf with none. */
  lemma TrailingBlock(ks: seq<LineKind>)
    requires AllParse(ks)
    ensures Group(ks + [Blank]) ==
            if OpenBlock(ks) > 0 then Group(ks) else Ok(Group(ks).value + [0])
  {
    var q := ks + [Blank];
    assert AllParse(q) by {
      assert forall k | 0 <= k < |ks| :: q[k] == ks[k];
    }
    BlankCloses(ks);
    var b := Blocks(ks);
    assert (b + [0])[..|b|] == b;
    assert b == b[..|b| - 1] + [b[|b| - 1]];
    assert b[..|b| - 1] + [] == b[..|b| - 1];
    assert b + [] == b;
  }

  // ---------------------------------------------------------------------
  // Part one: the largest total

  /** `m` is a largest element of `s`. */
  predicate IsMax(s: seq<nat>, m: nat) {
    m in s && forall k | 0 <= k < |s| :: s[k] <= m
  }

  /** `Iterator::max` over the totals: `None` for no totals. */
  function IterMax(s: seq<nat>): (r: Option<nat>)
    ensures r.None? <==> |s| == 0
    ensures r.Some? ==> IsMax(s, r.value)
  {
    if |s| == 0 then None
    else
      var last := s[|s| - 1];
      assert s == s[..|s| - 1] + [last];
      match IterMax(s[..|s| - 1])
      case None => Some(last)
      case Some(m) => Some(if last >= m then last else m)
  }

  /** `part_one`: the largest elf total; both `unwrap`s abort, on a parse
      error and on an inventory with no elves. */
  method PartOne(lines: seq<string>) returns (r: Exit<Option<nat>>)
    ensures r.Done? <==> Elves(lines).Ok? && |Elves(lines).value| > 0
    ensures r.Done? ==> r.value.Some? && IsMax(Elves(lines).value, r.value.value)
  {
    var elves := Sum(lines);
    if elves.Err? {
      return Panic;
    }
    var max := IterMax(elves.value);
    if max.None? {
      return Panic;
    }
    return Done(Some(max.value));
  }

  // ---------------------------------------------------------------------
  // Part two: the three largest totals

  /** `top` is three of the totals in `s`, counted with multiplicity, and no
      total left out is larger than any of the three. */
  ghost predicate IsTopThree(s: seq<nat>, top: seq<nat>) {
    && |top| == 3
    && multiset(top) <= multiset(s)
    && forall x, k | x in multiset(s) - multiset(top) && 0 <= k < 3 :: x <= top[k]
  }

  /** `v` is what the three largest totals of `s` add up to. */
  ghost predicate IsTopThreeSum(s: seq<nat>, v: nat) {
    exists top :: IsTopThree(s, top) && v == SeqSum(top)
  }

  /** In a sorted sequence, nothing before position `m` exceeds anything
      from `m` on. */
  lemma SortedSplit(t: seq<nat>, m: nat)
    requires IsSorted(t) && m <= |t|
    ensures forall x, k | x in t[..m] && m <= k < |t| :: x <= t[k]
  {
    forall x, k | x in t[..m] && m <= k < |t| ensures x <= t[k] {
      var j :| 0 <= j < m && t[..m][j] == x;
    }
  }

  /** The last three of a sorted sequence are a top three of it. */
  lemma SortedTopThreeOf(t: seq<nat>)
    requires IsSorted(t) && |t| >= 3
    ensures IsTopThree(t, t[|t| - 3..])
  {
    var n := |t|;
    var low, top := t[..n - 3], t[n - 3..];
    assert t == low + top;
    assert multiset(t) - multiset(top) == multiset(low);
    SortedSplit(t, n - 3);
    forall x, k | x in multiset(t) - multiset(top) && 0 <= k < 3
      ensures x <= top[k]
    {
      assert x in low;
      assert top[k] == t[n - 3 + k];
    }
  }

  /** The last three of the sorted totals are a top three. */
  lemma SortedTopThree(s: seq<nat>)
    requires |s| >= 3
    ensures IsTopThree(s, Sort(s)[|s| - 3..])
  {
    SortedTopThreeOf(Sort(s));
  }

  /** A sequence whose elements are those of a given multiset. */
  ghost function SeqOf(m: multiset<nat>): (r: seq<nat>)
    ensures multiset(r) == m
    decreases |m|
  {
    if |m| == 0 then []
    else
      var x :| x in m;
      [x] + SeqOf(m - multiset{x})
  }

  /** Two sorted sequences, the first nowhere above the second, make a
      sorted sequence. */
  lemma ConcatSorted(low: seq<nat>, high: seq<nat>)
    requires IsSorted(low) && IsSorted(high)
    requires forall x, y | x in low && y in high :: x <= y
    ensures IsSorted(low + high)
  {
    var v := low + high;
    forall i, j | 0 <= i < j < |v| ensures v[i] <= v[j] {
      if i < |low| <= j {
        assert v[i] in low && v[j] in high;
      }
    }
  }

  /** The totals left out of a top three, sorted, followed by the top three,
      sorted, are all the totals sorted. */
  lemma TopThreeSorted(s: seq<nat>, top: seq<nat>)
    requires IsTopThree(s, top)
    ensures Sort(s) == Sort(SeqOf(multiset(s) - multiset(top))) + Sort(top)
  {
    var rest := multiset(s) - multiset(top);
    var low := Sort(SeqOf(rest));
    var high := Sort(top);
    forall x, y | x in low && y in high ensures x <= y {
      assert x in multiset(low) && x in rest;
      assert y in multiset(high) && y in multiset(top);
      var k :| 0 <= k < 3 && top[k] == y;
    }
    ConcatSorted(low, high);
    assert multiset(low + high) == rest + multiset(top);
    assert rest + multiset(top) == multiset(s);
    SortedUnique(low + high, Sort(s));
  }

  /** Any two top threes have the same sum, so "the sum of the three largest
      totals" is well defined. */
  lemma TopThreeSumUnique(s: seq<nat>, top: seq<nat>)
    requires IsTopThree(s, top)
    ensures |s| >= 3
    ensures SeqSum(top) == SeqSum(Sort(s)[|s| - 3..])
  {
    TopThreeFits(s, top);
    TopThreeSorted(s, top);
    var low := Sort(SeqOf(multiset(s) - multiset(top)));
    var high := Sort(top);
    assert Sort(s)[|s| - 3..] == high;
    SumOfPermutation(top, high);
  }

  /** A top three needs at least three totals to come from. */
  lemma TopThreeFits(s: seq<nat>, top: seq<nat>)
    requires IsTopThree(s, top)
    ensures |s| >= 3
  {
    var d := multiset(s) - multiset(top);
    assert multiset(s) == d + multiset(top);
    assert |multiset(s)| == |d| + |multiset(top)|;
    assert |multiset(top)| == |top| == 3;
  }

  /** `part_two`: sort the totals ascending, in place, and add the last
      three; both the parse error and fewer than three elves abort
      (`elves.len() - 3` underflows). */
  method PartTwo(lines: seq<string>) returns (r: Exit<Option<nat>>)
    ensures r.Done? <==> Elves(lines).Ok? && |Elves(lines).value| >= 3
    ensures r.Done? ==> r.value.Some? && IsTopThreeSum(Elves(lines).value, r.value.value)
  {
    var elves := Sum(lines);
    if elves.Err? {
      return Panic;
    }
    var totals := elves.value;
    var a := new nat[|totals|](k requires 0 <= k < |totals| => totals[k]);
    assert a[..] == totals;
    SortInPlace(a);
    if a.Length < 3 {
      return Panic;
    }
    var top := a[a.Length - 3..];
    assert top == Sort(totals)[|totals| - 3..];
    SortedTopThreeSum(totals);
    return Done(Some(SeqSum(top)));
  }

  /** The last three of the sorted totals add up to the top three's sum. */
  lemma SortedTopThreeSum(s: seq<nat>)
    requires |s| >= 3
    ensures IsTopThreeSum(s, SeqSum(Sort(s)[|s| - 3..]))
  {
    SortedTopThree(s);
  }

  /** The largest total is the last one once the totals are sorted, so the
      two parts agree on the top elf. */
  lemma MaxIsLastSorted(s: seq<nat>)
    requires |s| > 0
    ensures IterMax(s) == Some(Sort(s)[|s| - 1])
  {
    LastOfSortedIsMax(s, Sort(s));
    MaxIsUnique(s, IterMax(s).value, Sort(s)[|s| - 1]);
  }

  /** The last of a sorted permutation of `s` is a largest element of `s`. */
  lemma LastOfSortedIsMax(s: seq<nat>, t: seq<nat>)
    requires |s| > 0 && IsSorted(t) && multiset(t) == multiset(s)
    ensures |t| == |s| && IsMax(s, t[|t| - 1])
  {
    assert |t| == |multiset(t)| == |s|;
    var last := t[|t| - 1];
    assert last in multiset(s) by {
      assert last in multiset(t);
    }
    forall k | 0 <= k < |s| ensures s[k] <= last {
      assert s[k] in multiset(t);
      var j :| 0 <= j < |t| && t[j] == s[k];
    }
  }

  /** A sequence has one largest element. */
  lemma MaxIsUnique(s: seq<nat>, a: nat, b: nat)
    requires IsMax(s, a) && IsMax(s, b)
    ensures a == b
  {
    var i :| 0 <= i < |s| && s[i] == a;
    var j :| 0 <= j < |s| && s[j] == b;
  }

  // ---------------------------------------------------------------------
  // The worked example of the puzzle

  /** A line holding the decimal rendering of a `u32` is that many calories. */
  lemma ClassifyNumber(n: nat)
    requires n <= U32_MAX
    ensures Classify(Decimal(n)) == Cals(n)
  {
    var s := Decimal(n);
    assert !IsWhitespace(s[0]) && !IsWhitespace(s[|s| - 1]) by {
      assert IsDigit(s[0]) && IsDigit(s[|s| - 1]);
    }
    assert Leading(s) == 0;
    assert Trailing(s) == 0;
    assert Trim(s) == s;
    ParseDecimal(n);
  }

  /** The puzzle's example inventory: five elves. */
  const CalorieExample: seq<string> :=
    ["1000", "2000", "3000", "", "4000", "", "5000", "6000", "", "7000", "8000", "9000", "", "10000"]

  /** A line holding the decimal rendering of `n` is read as `n` calories. */
  lemma NumberLine(lines: seq<string>, i: nat, n: nat)
    requires i < |lines| && n <= U32_MAX && lines[i] == Decimal(n)
    ensures Kinds(lines)[i] == Cals(n)
  {
    KindAt(lines, i);
    ClassifyNumber(n);
  }

  /** An empty line is read as the end of a block. */
  lemma BlankLine(lines: seq<string>, i: nat)
    requires i < |lines| && lines[i] == ""
    ensures Kinds(lines)[i] == Blank
  {
    KindAt(lines, i);
  }

  /** The layout of the example: fourteen lines, four of them empty. */
  predicate ExampleLayout(lines: seq<string>) {
    && |lines| == 14
    && lines[0] == "1000" && lines[1] == "2000" && lines[2] == "3000"
    && lines[4] == "4000" && lines[6] == "5000" && lines[7] == "6000"
    && lines[9] == "7000" && lines[10] == "8000" && lines[11] == "9000"
    && lines[13] == "10000"
    && lines[3] == lines[5] == lines[8] == lines[12] == ""
  }

  /** The decimal rendering of a whole number of thousands below ten thousand. */
  lemma DecimalThousands(d: nat)
    requires 1 <= d <= 9
    ensures Decimal(1000 * d) == [('0' as int + d) as char, '0', '0', '0']
  {
    assert Decimal(d) == [('0' as int + d) as char];
    DecimalTimesTen(d);
    DecimalTimesTen(10 * d);
    DecimalTimesTen(100 * d);
    assert 10 * (10 * (10 * d)) == 1000 * d;
  }

  /** Ten times `n` is written as `n` followed by a zero. */
  lemma DecimalTimesTen(n: nat)
    requires n >= 1
    ensures Decimal(10 * n) == Decimal(n) + ['0']
  {
    assert (10 * n) % 10 == 0 && (10 * n) / 10 == n;
  }

  /** A line of `d` followed by three zeros is read as `1000 * d` calories. */
  lemma ThousandsLine(lines: seq<string>, i: nat, d: nat)
    requires i < |lines| && 1 <= d <= 9
    requires lines[i] == [('0' as int + d) as char, '0', '0', '0']
    ensures Kinds(lines)[i] == Cals(1000 * d)
  {
    DecimalThousands(d);
    NumberLine(lines, i, 1000 * d);
  }

  /** A line reading "10000" is read as ten thousand calories. */
  lemma TenThousandLine(lines: seq<string>, i: nat)
    requires i < |lines| && lines[i] == "10000"
    ensures Kinds(lines)[i] == Cals(10000)
  {
    DecimalThousands(1);
    DecimalTimesTen(1000);
    NumberLine(lines, i, 10000);
  }

  /** The classified example. */
  const ExampleKindList: seq<LineKind> :=
    [Cals(1000), Cals(2000), Cals(3000), Blank, Cals(4000), Blank, Cals(5000), Cals(6000),
     Blank, Cals(7000), Cals(8000), Cals(9000), Blank, Cals(10000)]

  /** Lines laid out as the example's are classified as the example's. */
  lemma LayoutKinds(lines: seq<string>)
    requires ExampleLayout(lines)
    ensures Kinds(lines) == ExampleKindList
  {
    ThousandsLine(lines, 0, 1);
    ThousandsLine(lines, 1, 2);
    ThousandsLine(lines, 2, 3);
    BlankLine(lines, 3);
    ThousandsLine(lines, 4, 4);
    BlankLine(lines, 5);
    ThousandsLine(lines, 6, 5);
    ThousandsLine(lines, 7, 6);
    BlankLine(lines, 8);
    ThousandsLine(lines, 9, 7);
    ThousandsLine(lines, 10, 8);
    ThousandsLine(lines, 11, 9);
    BlankLine(lines, 12);
    TenThousandLine(lines, 13);
  }

  /** The calories of a block of one, two or three numbers. */
  lemma CaloriesOfThree(x: nat, y: nat, z: nat)
    ensures Calories([Cals(x)]) == x
    ensures Calories([Cals(x), Cals(y)]) == x + y
    ensures Calories([Cals(x), Cals(y), Cals(z)]) == x + y + z
  {
    var one, two, three := [Cals(x)], [Cals(x), Cals(y)], [Cals(x), Cals(y), Cals(z)];
    assert one[..0] == [];
    assert two[..1] == one;
    assert three[..2] == two;
  }

  /** A block after an empty line adds one total to those before it. */
  lemma NextBlock(p: seq<LineKind>, q: seq<LineKind>, b: seq<nat>)
    requires NoBlank(q) && Blocks(p) == b
    ensures Blocks(p + [Blank] + q) == b + [Calories(q)]
  {
    BlocksAfterBlank(p, q);
  }

  /** Three blocks, the first two closed by an empty line, give three totals. */
  lemma ThreeBlocks(q1: seq<LineKind>, q2: seq<LineKind>, q3: seq<LineKind>)
    requires NoBlank(q1) && NoBlank(q2) && NoBlank(q3)
    ensures Blocks(q1 + [Blank] + q2 + [Blank] + q3) == [Calories(q1)] + [Calories(q2)] + [Calories(q3)]
  {
    OneBlock(q1);
    NextBlock(q1, q2, [Calories(q1)]);
    NextBlock(q1 + [Blank] + q2, q3, [Calories(q1)] + [Calories(q2)]);
  }

  /** Five blocks, the first four closed by an empty line, give five totals. */
  lemma FiveBlocks(q1: seq<LineKind>, q2: seq<LineKind>, q3: seq<LineKind>, q4: seq<LineKind>, q5: seq<LineKind>)
    requires NoBlank(q1) && NoBlank(q2) && NoBlank(q3) && NoBlank(q4) && NoBlank(q5)
    ensures Blocks(q1 + [Blank] + q2 + [Blank] + q3 + [Blank] + q4 + [Blank] + q5) ==
            [Calories(q1)] + [Calories(q2)] + [Calories(q3)] + [Calories(q4)] + [Calories(q5)]
  {
    ThreeBlocks(q1, q2, q3);
    var p3 := q1 + [Blank] + q2 + [Blank] + q3;
    NextBlock(p3, q4, [Calories(q1)] + [Calories(q2)] + [Calories(q3)]);
    NextBlock(p3 + [Blank] + q4, q5, [Calories(q1)] + [Calories(q2)] + [Calories(q3)] + [Calories(q4)]);
  }

  /** The example's classified lines make five blocks. */
  lemma ExampleBlocks(ks: seq<LineKind>)
    requires ks == ExampleKindList
    ensures Blocks(ks) == [6000, 4000, 11000, 24000, 10000]
  {
    var q1 := [Cals(1000), Cals(2000), Cals(3000)];
    var q2 := [Cals(4000)];
    var q3 := [Cals(5000), Cals(6000)];
    var q4 := [Cals(7000), Cals(8000), Cals(9000)];
    var q5 := [Cals(10000)];
    assert ks == q1 + [Blank] + q2 + [Blank] + q3 + [Blank] + q4 + [Blank] + q5;
    FiveBlocks(q1, q2, q3, q4, q5);
    CaloriesOfThree(1000, 2000, 3000);
    CaloriesOfThree(4000, 0, 0);
    CaloriesOfThree(5000, 6000, 0);
    CaloriesOfThree(7000, 8000, 9000);
    CaloriesOfThree(10000, 0, 0);
  }

  /** The example's classified lines group into five elves. */
  lemma ExampleGroup(ks: seq<LineKind>)
    requires ks == ExampleKindList
    ensures Group(ks) == Ok([6000, 4000, 11000, 24000, 10000])
  {
    ExampleBlocks(ks);
    assert AllParse(ks);
  }

  /** The example's elves carry 6000, 4000, 11000, 24000 and 10000 calories. */
  lemma ExampleElves()
    ensures Elves(CalorieExample) == Ok([6000, 4000, 11000, 24000, 10000])
  {
    assert ExampleLayout(CalorieExample);
    LayoutKinds(CalorieExample);
    ExampleGroup(Kinds(CalorieExample));
  }

  /** Sorting the example's totals. */
  lemma ExampleSorted(s: seq<nat>)
    requires s == [6000, 4000, 11000, 24000, 10000]
    ensures Sort(s) == [4000, 6000, 10000, 11000, 24000]
  {
    var t: seq<nat> := [4000, 6000, 10000, 11000, 24000];
    assert IsSorted(t);
    assert multiset(s) == multiset(t);
    SortIsUnique(s, t);
  }

  /** The example's largest total is 24000. */
  lemma ExampleMax(s: seq<nat>, m: nat)
    requires s == [6000, 4000, 11000, 24000, 10000] && IsMax(s, m)
    ensures m == 24000
  {
    assert s[3] <= m;
  }

  /** The last three of the example's sorted totals add up to 45000. */
  lemma ExampleSortedTop(t: seq<nat>)
    requires t == [4000, 6000, 10000, 11000, 24000]
    ensures SeqSum(t[|t| - 3..]) == 45000
  {
    var high := t[|t| - 3..];
    assert high == [10000, 11000, 24000];
    var a, b := high[..2], high[..1];
    assert a[..1] == b && b[..0] == [];
    assert SeqSum(b) == 10000;
    assert SeqSum(a) == 21000;
  }

  /** The example's three largest totals add up to 45000. */
  lemma ExampleTopThree(s: seq<nat>, v: nat)
    requires s == [6000, 4000, 11000, 24000, 10000] && IsTopThreeSum(s, v)
    ensures v == 45000
  {
    var top :| IsTopThree(s, top) && v == SeqSum(top);
    TopThreeSumUnique(s, top);
    ExampleSorted(s);
    ExampleSortedTop(Sort(s));
  }

  /** `part_one` and `part_two` on the example: 24000 calories for the best
      provisioned elf, 45000 for the best three. */
  method RunCalorieExample() returns (one: Exit<Option<nat>>, two: Exit<Option<nat>>)
    ensures one == Done(Some(24000)) && two == Done(Some(45000))
  {
    ExampleElves();
    one := PartOne(CalorieExample);
    two := PartTwo(CalorieExample);
    ExampleMax(Elves(CalorieExample).value, one.value.value);
    ExampleTopThree(Elves(CalorieExample).value, two.value.value);
  }
}
