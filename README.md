# Advent of Code 2022, days 1 and 2, in Dafny

This project models two puzzle solutions from a Rust repository and proves
what they compute.

- **Calorie counting** (`src/bin/01.rs`). An inventory lists one number of
  calories per line, and empty lines separate one elf's block from the next.
  - `sum` scans the lines into one total per elf.
  - `part_one` returns the largest total.
  - `part_two` sorts the totals in place and adds the last three.
- **Rock, paper, scissors** (`src/bin/02.rs`). A strategy guide holds two
  tokens per line.
  - `part_one` reads the second token as our shape.
  - `part_two` reads it as the outcome we must reach and derives a shape with
    `expect`.
  - Either way a round scores our shape's points plus the outcome's, and the
    guide is worth the sum of its rounds.

Both parts of each puzzle take the input as a sequence of lines, that is, the
result of `str::lines()`. The result type `Exit` has two constructors:
`Done(Some(n))` for a part that returns `Some(n)`, and `Panic` for a part
that aborts: an `unwrap` of a `None` or an `Err` in either puzzle, or the
`elves.len() - 3` underflow of day 1's `part_two`.

Layout:

- `prelude.dfy` holds `Option`, `Result` and `Exit`.
- `text.dfy` holds `str::split_once` and `str::trim`. It also holds `u32`
  parsing and its partner, decimal rendering.
- `sorting.dfy` holds the specification of an ascending sort. It also holds an
  in-place insertion sort on an `array` proved equal to that specification,
  and sum lemmas.
- `calorie_counting.dfy` holds day 1: the `sum` loop as a method proved
  against the specification function `Elves`, and both parts. The body of the
  loop is the method `CalorieCounting.ScanLine`, so that the loop in
  `CalorieCounting.Sum` reasons about each line only through its kind.
- `rock_paper_scissors.dfy` holds day 2: parsing, the scoring tables, `play`,
  `expect`, and both scoring loops as methods proved against the total
  `Total`.

How the code behaves at its edges, as the model follows it:

- Day 2's two token parsers share one error value, `ParseMoveError`, and
  every failure is an `unwrap` panic, so no error kind is told apart.
- A guide line without a space aborts the guide, blank lines included
  (`RockPaperScissors.AbortsAt`).
- A guide line splits at its first `' '` only, so `A\tY` aborts, and `A Y Z`
  aborts because `Y Z` does not parse.

## Model

| member | source | states |
|---|---|---|
| Text.SplitOnce | src/bin/02.rs:138 | `None` exactly when the separator does not occur; otherwise the line is `before + [c] + after`, split at the first occurrence (`before` holds no `c`). |
| Text.Trim | src/bin/01.rs:12 | The result is the slice of the line between its leading and trailing whitespace. Everything dropped is whitespace, and the slice neither starts nor ends with whitespace. |
| Text.LeadingIsWhitespace | src/bin/01.rs:12 | The leading count covers only whitespace and stops at the first non-whitespace character. |
| Text.TrailingIsWhitespace | src/bin/01.rs:12 | The trailing count covers only whitespace and stops at the last non-whitespace character. |
| Text.Unsigned | src/bin/01.rs:12 | The digits `parse::<u32>` reads: a leading `+` is always dropped, and a line without one is read whole. |
| Text.ParseU32 | src/bin/01.rs:12 | Parsing succeeds exactly for an optional `+` followed by a non-empty run of decimal digits whose value fits in 32 bits; the value is the number the digits denote, and at most `u32::MAX`. |
| Text.ParseLeadingZero | src/bin/01.rs:12 | A leading zero does not change what a run of digits parses to, so `"007"` reads as 7. |
| Text.ParseDecimal | src/bin/01.rs:12 | Round trip: parsing the decimal rendering of any `u32`, with or without a `+`, gives the number back. |
| Text.ParseOverflows | src/bin/01.rs:12 | The decimal rendering of any number above `u32::MAX` fails to parse. |
| Text.ParseRejects | src/bin/01.rs:12 | The empty string, a bare `+`, a minus sign and digits with untrimmed whitespace fail to parse. |
| Text.DecimalValueOfDecimal | src/bin/01.rs:12 | The digits of the decimal rendering of `n` denote `n`. |
| Sorting.Sort | src/bin/01.rs:30 | The reference ascending sort: the result is sorted and is a permutation of its input (same multiset, same length). |
| Sorting.Insert | src/bin/01.rs:30 | Inserting into a sorted sequence keeps it sorted and adds exactly the element inserted. |
| Sorting.InsertInPlace | src/bin/01.rs:30 | One pass of the in-place sort: it swaps `a[i]` back until `a[..i+1]` is sorted, the array's elements stay the same, and those after `a[i]` stay where they were. |
| Sorting.SortInPlace | src/bin/01.rs:30 | `elves.sort()`: afterwards the array holds exactly `Sort` of its old contents. |
| Sorting.SortedUnique | src/bin/01.rs:30 | Two sorted sequences with the same elements are equal, so a sorted permutation is unique. |
| Sorting.SortIsUnique | src/bin/01.rs:30 | Any sorted permutation of `s` is `Sort(s)`. |
| Sorting.SeqSumAppend | src/bin/01.rs:31 | The sum of a concatenation is the sum of the sums. |
| Sorting.SumOfPermutation | src/bin/01.rs:31 | Reordering a sequence does not change its sum. |
| CalorieCounting.Kinds | src/bin/01.rs:5-12 | One kind per line, in order. |
| CalorieCounting.KindAt | src/bin/01.rs:5-12 | The kind at position `i` is the kind of line `i`: blank, a number, or an error. |
| CalorieCounting.Classify | src/bin/01.rs:6-12 | A line is blank exactly when it is empty; otherwise its trimmed text parses as a `u32` (the calories) or the line is an error. |
| CalorieCounting.Blocks | src/bin/01.rs:5-19 | Every empty line closes one block, so there is always one more block than there are empty lines. |
| CalorieCounting.Group | src/bin/01.rs:1-21 | `sum`'s result fails exactly when some line does not parse. |
| CalorieCounting.Elves | src/bin/01.rs:1-21 | What `sum` returns for an inventory, the specification `Sum`, `PartOne` and `PartTwo` are proved against: an error exactly when some line's kind is not a number. |
| CalorieCounting.ScanStep | src/bin/01.rs:6-13 | One step of the loop: an empty line pushes the running total and restarts at 0; a number adds to the running total. |
| CalorieCounting.ScanEnd | src/bin/01.rs:16-20 | After the loop, the last running total is pushed exactly when it is non-zero. |
| CalorieCounting.ScanLine | src/bin/01.rs:5-13 | One pass of the loop: a blank line pushes the running total and resets it to zero, a number is added to it, and a line that does not parse stops the scan. |
| CalorieCounting.Sum | src/bin/01.rs:1-21 | The loop returns `Elves(lines)`, stopping with the parse error at the first line that does not parse. |
| CalorieCounting.ElvesFailIff | src/bin/01.rs:12 | `sum` fails exactly when some non-empty line, once trimmed, is not a `u32`. |
| CalorieCounting.BlocksSum | src/bin/01.rs:5-19 | The block totals add up to all the calories of the inventory. |
| CalorieCounting.GroupSumAndCount | src/bin/01.rs:5-20 | The elves' totals add up to all parsed calories. There is one elf per empty line, plus one when the open block at the end is non-zero. |
| CalorieCounting.BlocksExtend | src/bin/01.rs:12-13 | Lines without an empty one all add to the open block. |
| CalorieCounting.BlocksAfterBlank | src/bin/01.rs:6-13 | After an empty line, the next run of numbers forms a new block holding their sum. |
| CalorieCounting.OneBlock | src/bin/01.rs:12-13 | An inventory without an empty line is one block. |
| CalorieCounting.BlankCloses | src/bin/01.rs:6-9 | An empty line appends a new block at 0 to those before it. |
| CalorieCounting.ConsecutiveBlanks | src/bin/01.rs:6-10 | Two empty lines in a row at the end of the inventory push an elf with 0 calories. |
| CalorieCounting.TrailingBlock | src/bin/01.rs:16-19 | A final empty line changes nothing when the last block is non-zero (the block without its line end is still counted); otherwise it adds an elf with 0. |
| CalorieCounting.IterMax | src/bin/01.rs:25 | `iter().max()`: `None` exactly for no elves; otherwise a total in the list that no total exceeds. |
| CalorieCounting.PartOne | src/bin/01.rs:23-26 | Returns a value exactly when `sum` succeeds with at least one elf, and that value is the largest total; otherwise it panics. |
| CalorieCounting.SortedTopThreeOf | src/bin/01.rs:30-31 | The last three of a sorted sequence are a top three: no element left out exceeds any of them. |
| CalorieCounting.SortedTopThree | src/bin/01.rs:30-31 | The last three of `Sort(s)` are a top three of `s`. |
| CalorieCounting.TopThreeSorted | src/bin/01.rs:30-31 | Sorting the totals puts the rest, sorted, before the top three, sorted. |
| CalorieCounting.TopThreeFits | src/bin/01.rs:31 | A top three needs at least three totals. |
| CalorieCounting.TopThreeSumUnique | src/bin/01.rs:30-31 | Every top three has the sum of the last three sorted totals, so that sum is well defined. |
| CalorieCounting.SortedTopThreeSum | src/bin/01.rs:30-31 | The sum of the last three sorted totals is the sum of a top three. |
| CalorieCounting.PartTwo | src/bin/01.rs:28-32 | Returns a value exactly when `sum` succeeds with at least three elves, and that value is the sum of the three largest totals; otherwise it panics (`len() - 3` underflows). |
| CalorieCounting.MaxIsLastSorted | src/bin/01.rs:23-32 | The largest total is the last sorted one, so the two parts agree on the top elf. |
| CalorieCounting.LastOfSortedIsMax | src/bin/01.rs:25 | The last of a sorted permutation is the largest element. |
| CalorieCounting.MaxIsUnique | src/bin/01.rs:25 | A sequence has only one largest value. |
| CalorieCounting.ClassifyNumber | src/bin/01.rs:12 | A line holding the decimal rendering of a `u32` is read as that many calories. |
| CalorieCounting.ExampleElves | src/bin/01.rs:44-54 | The puzzle's example inventory makes five elves: 6000, 4000, 11000, 24000 and 10000. |
| CalorieCounting.ExampleMax | src/bin/01.rs:47 | The example's largest total is 24000. |
| CalorieCounting.ExampleTopThree | src/bin/01.rs:53 | The example's three largest totals add up to 45000. |
| CalorieCounting.RunCalorieExample | src/bin/01.rs:44-54 | On the example inventory, `part_one` gives `Some(24_000)` and `part_two` gives `Some(45_000)`. |
| RockPaperScissors.ParseSymbol | src/bin/02.rs:28-35 | Each of A/X, B/Y and C/Z gives its shape, and nothing else does; every other string is the error. |
| RockPaperScissors.ParseOutcome | src/bin/02.rs:49-56 | X, Y and Z give a loss, a draw and a win, and nothing else does; every other string is the error. |
| RockPaperScissors.ParseTokens | src/bin/02.rs:28-56 | Every token the guide writes for a shape or an outcome parses back to it. |
| RockPaperScissors.ScoreSymbol | src/bin/02.rs:59-65 | A shape scores 1, 2 or 3. |
| RockPaperScissors.ScoreOutcome | src/bin/02.rs:67-73 | An outcome scores 0, 3 or 6. |
| RockPaperScissors.ScoresSeparate | src/bin/02.rs:59-73 | Different shapes score differently; a loss scores below a draw, which scores below a win. |
| RockPaperScissors.RoundPoints | src/bin/02.rs:143-145 | A round is worth between 1 and 9 points. |
| RockPaperScissors.Play | src/bin/02.rs:75-105 | `play` answers every pair of shapes (the `None` return is dead); a draw happens exactly when both shapes are alike. |
| RockPaperScissors.PlayFollowsRule | src/bin/02.rs:75-105 | `play` matches the rule of the game: we win exactly when our shape beats the opponent's, lose exactly when it is beaten, and draw otherwise. |
| RockPaperScissors.PlayAntisymmetric | src/bin/02.rs:80-101 | Different shapes never draw, and swapping the players swaps a win for a loss. |
| RockPaperScissors.Expect | src/bin/02.rs:108-132 | The shape picked for a draw is the opponent's. The shape picked for a win beats the opponent's, and the shape picked for a loss is beaten by it. |
| RockPaperScissors.ExpectAfterPlay | src/bin/02.rs:75-132 | `expect(opp, play(opp, m)) == m`. |
| RockPaperScissors.PlayAfterExpect | src/bin/02.rs:75-132 | `play(opp, expect(opp, d)) == Some(d)`. |
| RockPaperScissors.ExpectIsUnique | src/bin/02.rs:75-132 | A shape reaches outcome `d` against `opp` exactly when it is the one `expect` picks. |
| RockPaperScissors.LineScore | src/bin/02.rs:137-164 | A line that scores holds a space and is worth 1 to 9 points. |
| RockPaperScissors.Scores | src/bin/02.rs:137-147 | One score per line of the guide. |
| RockPaperScissors.Add | src/bin/02.rs:143-145 | Adding two scores aborts exactly when either does; otherwise it adds their points. |
| RockPaperScissors.RunningTotal | src/bin/02.rs:136-149 | The running total both scoring loops reach, starting at 0 and adding each score in turn: there is a total exactly when no line's score aborted. |
| RockPaperScissors.Total | src/bin/02.rs:134-168 | The total of a guide is the `RunningTotal` of its `Scores`, the fold both `PartOne` and `PartTwo` are proved equal to. |
| RockPaperScissors.TotalAbortsIff | src/bin/02.rs:137-147 | A guide aborts exactly when one of its lines does. |
| RockPaperScissors.TotalBounds | src/bin/02.rs:134-150 | A guide of n lines that does not abort is worth between n and 9n points. |
| RockPaperScissors.TotalAppend | src/bin/02.rs:137-147 | The total of two guides, one after the other, is the sum of their totals. |
| RockPaperScissors.TotalOfPermutation | src/bin/02.rs:137-147 | The order of the lines does not change the total: any reordering of a guide has the same total, or aborts as well. |
| RockPaperScissors.Report | src/bin/02.rs:149 | A part panics exactly when the total aborts; otherwise it returns `Some(total)`. |
| RockPaperScissors.ShapesStep | src/bin/02.rs:138-145 | A well-formed line of two shapes adds our shape's points plus those of the outcome `play` gives to the running total. |
| RockPaperScissors.OutcomeStep | src/bin/02.rs:156-163 | A well-formed line of a shape and an outcome adds the points of the shape `expect` picks plus the outcome's to the running total. |
| RockPaperScissors.AbortsAt | src/bin/02.rs:138-140 | A line without a space, or with a token that does not parse, makes the whole guide abort. |
| RockPaperScissors.PartOne | src/bin/02.rs:134-150 | The loop returns the total of the guide read as two shapes per line, or panics exactly when that total aborts. |
| RockPaperScissors.PartTwo | src/bin/02.rs:152-168 | The loop returns the total of the guide read as a shape and an outcome per line, or panics exactly when that total aborts. |
| RockPaperScissors.ShapesRound | src/bin/02.rs:137-146 | The line a guide writes for two shapes scores our shape plus the outcome `play` gives. |
| RockPaperScissors.OutcomeRound | src/bin/02.rs:155-164 | The line a guide writes for a shape and an outcome scores the shape `expect` picks plus that outcome. |
| RockPaperScissors.ExampleTotals | src/bin/02.rs:180-190 | The example guide `A Y`, `B X`, `C Z` totals 15 under the first reading and 12 under the second. |
| RockPaperScissors.ExampleAborts | src/bin/02.rs:138-140 | A line with no space (`A`) or with an unknown shape (`D Y`) aborts the guide under both readings, instead of adding 0. |
| RockPaperScissors.RunExample | src/bin/02.rs:180-190 | On the example, `part_one` gives `Some(15)` and `part_two` gives `Some(12)`; `part_one` on the guide `A` (no space) and `part_two` on the guide `D Y` (unknown shape) both panic. |

## Left out

- `main`, `advent_of_code::read_file` and `solve!` (src/bin/01.rs:34-38, src/bin/02.rs:170-174) are left out. They read files and print.
- The test modules' file loading is left out. The expected values are kept as example lemmas. The example input files are not part of this model, so the inventory and the guide used are the puzzles' published examples.
- The `Display` and `Error` impls for `ParseMoveError` (src/bin/02.rs:5-16) are left out. They only format a message, so the model keeps one error value.
- `str::lines()` is left out: the lines arrive already split, with no `\r\n` handling and no final-newline handling.
- Text.Trim: trims ASCII whitespace only (tab, line feed, vertical tab, form feed, carriage return, space). Rust's `trim` also drops other Unicode white space.
- CalorieCounting.Sum: the parse error keeps no kind. Rust's `?` passes on a boxed `ParseIntError` that records whether the text was empty, held an invalid digit or overflowed; every failing line here gives the one `ParseIntError`. Both parts `unwrap` the result, so no caller looks at the kind.
- CalorieCounting.Sum: the running total is a `nat`, so a `u32` overflow of `sum += cals` (a panic in a debug build, a wrap in release) is not modelled. The parse of each line is limited to 32 bits.
- CalorieCounting.PartTwo: the sum of the top three is a `nat`, so an overflow of `iter().sum()` is not modelled.
- RockPaperScissors.PartOne: the total is a `nat`. No `u32` overflow is modelled: it would take a guide of more than 477 million lines.
- RockPaperScissors.PartTwo: the total is a `nat`, as in `PartOne`.
- RockPaperScissors.PartOne: the source matches on the outcome with three arms. Each arm adds `score_s(us) + score_d` of the matched outcome, so the model writes that single addition once.
- RockPaperScissors.PartTwo: the source's three arms on the shape `expect` picks each add `score_s` of that shape plus `score_d(desired)`, and the model writes that single addition once.
- Sorting.SortInPlace: `Vec::sort` is a library stable sort. The model sorts the array by insertion and proves it yields the one sorted permutation, which is the same result whatever the algorithm.
