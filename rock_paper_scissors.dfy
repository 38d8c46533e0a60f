/** The strategy guide of a rock/paper/scissor tournament: every line names the
    opponent's shape and either our shape (first reading) or the outcome we
    must reach (second reading), and the guide is worth the sum of its rounds. */
module RockPaperScissors {
  import opened Prelude
  import opened Text

  datatype Symbol = Rock | Paper | Scissor

  /** Always seen from our side, the second player's. */
  datatype Outcome = Win | Lose | Draw

  /** The one error both token parsers report. */
  datatype ParseMoveError = ParseMoveError

  // ---------------------------------------------------------------------
  // Token parsing

  /** `Symbol::from_str`: A/X, B/Y and C/Z name the three shapes; any other
      string, including one with extra characters, is an error. */
  function ParseSymbol(s: string): (r: Result<Symbol, ParseMoveError>)
    ensures r == Ok(Rock) <==> s == "A" || s == "X"
    ensures r == Ok(Paper) <==> s == "B" || s == "Y"
    ensures r == Ok(Scissor) <==> s == "C" || s == "Z"
    ensures r.Err? <==> s !in {"A", "B", "C", "X", "Y", "Z"}
  {
    if s == "A" || s == "X" then Ok(Rock)
    else if s == "B" || s == "Y" then Ok(Paper)
    else if s == "C" || s == "Z" then Ok(Scissor)
    else Err(ParseMoveError)
  }

  /** `Outcome::from_str`: X, Y and Z ask for a loss, a draw and a win. */
  function ParseOutcome(s: string): (r: Result<Outcome, ParseMoveError>)
    ensures r == Ok(Lose) <==> s == "X"
    ensures r == Ok(Draw) <==> s == "Y"
    ensures r == Ok(Win) <==> s == "Z"
    ensures r.Err? <==> s !in {"X", "Y", "Z"}
  {
    if s == "X" then Ok(Lose)
    else if s == "Y" then Ok(Draw)
    else if s == "Z" then Ok(Win)
    else Err(ParseMoveError)
  }

  /** The letters the guide uses for the opponent's shape. */
  function OpponentToken(m: Symbol): string {
    match m
    case Rock => "A"
    case Paper => "B"
    case Scissor => "C"
  }

  /** The letters the guide uses in the second column. */
  function SecondToken(m: Symbol): string {
    match m
    case Rock => "X"
    case Paper => "Y"
    case Scissor => "Z"
  }

  function OutcomeToken(d: Outcome): string {
    match d
    case Lose => "X"
    case Draw => "Y"
    case Win => "Z"
  }

  /** Every token the guide can write for a shape or an outcome parses back
      to it. */
  lemma ParseTokens(m: Symbol, d: Outcome)
    ensures ParseSymbol(OpponentToken(m)) == Ok(m)
    ensures ParseSymbol(SecondToken(m)) == Ok(m)
    ensures ParseOutcome(OutcomeToken(d)) == Ok(d)
  {
  }

  // ---------------------------------------------------------------------
  // Scoring tables

  /** `score_s`: points for the shape we play. */
  function ScoreSymbol(s: Symbol): (r: nat)
    ensures r in {1, 2, 3}
  {
    match s
    case Rock => 1
    case Paper => 2
    case Scissor => 3
  }

  /** `score_d`: points for the outcome of the round. */
  function ScoreOutcome(d: Outcome): (r: nat)
    ensures r in {0, 3, 6}
  {
    match d
    case Win => 6
    case Draw => 3
    case Lose => 0
  }

  /** Different shapes score differently, and a better outcome always scores
      more: a loss below a draw below a win. */
  lemma ScoresSeparate(a: Symbol, b: Symbol)
    ensures a != b ==> ScoreSymbol(a) != ScoreSymbol(b)
    ensures ScoreOutcome(Lose) < ScoreOutcome(Draw) < ScoreOutcome(Win)
  {
  }

  /** What one round is worth: our shape's points plus the outcome's. */
  function RoundPoints(us: Symbol, d: Outcome): (r: nat)
    ensures 1 <= r <= 9
  {
    ScoreSymbol(us) + ScoreOutcome(d)
  }

  // ---------------------------------------------------------------------
  // Resolving a round and choosing a shape

  /** The rule of the game, independent of `Play`: rock blunts scissors,
      scissors cut paper, paper wraps rock. */
  predicate Beats(x: Symbol, y: Symbol) {
    (x == Rock && y == Scissor) || (x == Scissor && y == Paper) || (x == Paper && y == Rock)
  }

  /** `play`: the outcome for us when the opponent shows `opp` and we show
      `us`. The source ends in a `None` that no pair of shapes reaches. */
  function Play(opp: Symbol, us: Symbol): (r: Option<Outcome>)
    ensures r.Some?
    ensures r == Some(Draw) <==> opp == us
  {
    assert opp.Rock? || opp.Paper? || opp.Scissor?;
    assert us.Rock? || us.Paper? || us.Scissor?;
    if opp == us then Some(Draw)
    else if opp == Rock && us == Paper then Some(Win)
    else if opp == Rock && us == Scissor then Some(Lose)
    else if opp == Paper && us == Rock then Some(Lose)
    else if opp == Paper && us == Scissor then Some(Win)
    else if opp == Scissor && us == Rock then Some(Win)
    else if opp == Scissor && us == Paper then Some(Lose)
    else None
  }

  /** `Play` decides rounds by the rule of the game. */
  lemma PlayFollowsRule(opp: Symbol, us: Symbol)
    ensures Play(opp, us) == Some(Win) <==> Beats(us, opp)
    ensures Play(opp, us) == Some(Lose) <==> Beats(opp, us)
    ensures Play(opp, us) == Some(Draw) <==> !Beats(us, opp) && !Beats(opp, us)
  {
  }

  function Reversed(d: Outcome): Outcome {
    match d
    case Win => Lose
    case Lose => Win
    case Draw => Draw
  }

  /** Two different shapes never draw, and swapping the players swaps a win
      for a loss. */
  lemma PlayAntisymmetric(a: Symbol, b: Symbol)
    requires a != b
    ensures Play(a, b) == Some(Win) || Play(a, b) == Some(Lose)
    ensures Play(b, a) == Some(Reversed(Play(a, b).value))
  {
  }

  /** `expect`: the shape to show against `opp` to get `desired`. */
  function Expect(opp: Symbol, desired: Outcome): (m: Symbol)
    ensures desired == Draw ==> m == opp
    ensures desired == Win ==> Beats(m, opp)
    ensures desired == Lose ==> Beats(opp, m)
  {
    match desired
    case Win =>
      (match opp
       case Rock => Paper
       case Paper => Scissor
       case Scissor => Rock)
    case Lose =>
      (match opp
       case Rock => Scissor
       case Paper => Rock
       case Scissor => Paper)
    case Draw =>
      (match opp
       case Rock => Rock
       case Paper => Paper
       case Scissor => Scissor)
  }

  /** `Expect` undoes `Play`: the shape that produced an outcome is the one
      `Expect` picks for it. */
  lemma ExpectAfterPlay(opp: Symbol, m: Symbol)
    ensures Expect(opp, Play(opp, m).value) == m
  {
  }

  /** `Play` undoes `Expect`: the chosen shape reaches the desired outcome. */
  lemma PlayAfterExpect(opp: Symbol, d: Outcome)
    ensures Play(opp, Expect(opp, d)) == Some(d)
  {
  }

  /** The shape `Expect` picks is the only one that reaches the outcome. */
  lemma ExpectIsUnique(opp: Symbol, d: Outcome, m: Symbol)
    ensures Play(opp, m) == Some(d) <==> m == Expect(opp, d)
  {
    ExpectAfterPlay(opp, m);
    PlayAfterExpect(opp, d);
  }

  // ---------------------------------------------------------------------
  // Scoring a whole guide

  /** Which column reading a part uses: `part_one` reads two shapes,
      `part_two` a shape and a desired outcome. */
  datatype Reading = TwoShapes | ShapeAndOutcome

  /** The points of one line under a reading, or `None` where the source's
      `unwrap` aborts: no space in the line, or a token that does not parse. */
  function LineScore(reading: Reading, line: string): (r: Option<nat>)
    ensures r.Some? ==> 1 <= r.value <= 9
    ensures r.Some? ==> ' ' in line
  {
    match SplitOnce(line, ' ')
    case None => None
    case Some((t, u)) =>
      match ParseSymbol(t)
      case Err(_) => None
      case Ok(them) =>
        match reading
        case TwoShapes =>
          (match ParseSymbol(u)
           case Err(_) => None
           case Ok(us) =>
             match Play(them, us)
             case None => None
             case Some(d) => Some(RoundPoints(us, d)))
        case ShapeAndOutcome =>
          (match ParseOutcome(u)
           case Err(_) => None
           case Ok(d) => Some(RoundPoints(Expect(them, d), d)))
  }

  /** The scores of the lines of a guide, in order. */
  function Scores(reading: Reading, lines: seq<string>): (r: seq<Option<nat>>)
    ensures |r| == |lines|
  {
    seq(|lines|, i requires 0 <= i < |lines| => LineScore(reading, lines[i]))
  }

  /** Adding two scores, either of which may have aborted. */
  function Add(a: Option<nat>, b: Option<nat>): (r: Option<nat>)
    ensures r.None? <==> a.None? || b.None?
    ensures r.Some? ==> r.value == a.value + b.value
  {
    if a.Some? && b.Some? then Some(a.value + b.value) else None
  }

  /** The running total a loop over `scores` reaches, or `None` once one
      aborts: there is a total exactly when no score aborted. */
  function RunningTotal(scores: seq<Option<nat>>): (r: Option<nat>)
    ensures r.Some? <==> forall i | 0 <= i < |scores| :: scores[i].Some?
  {
    if |scores| == 0 then Some(0)
    else Add(RunningTotal(scores[..|scores| - 1]), scores[|scores| - 1])
  }

  /** The total of a guide. */
  function Total(reading: Reading, lines: seq<string>): Option<nat> {
    RunningTotal(Scores(reading, lines))
  }

  /** A guide aborts exactly when one of its lines does. */
  lemma TotalAbortsIff(reading: Reading, lines: seq<string>)
    ensures Total(reading, lines).None? <==>
            exists i | 0 <= i < |lines| :: LineScore(reading, lines[i]).None?
  {
    var scores := Scores(reading, lines);
    assert forall i | 0 <= i < |lines| :: scores[i] == LineScore(reading, lines[i]);
  }

  lemma {:induction false} RunningTotalBounds(scores: seq<Option<nat>>)
    requires RunningTotal(scores).Some?
    requires forall i | 0 <= i < |scores| :: scores[i].Some? ==> 1 <= scores[i].value <= 9
    ensures |scores| <= RunningTotal(scores).value <= 9 * |scores|
  {
    if |scores| > 0 {
      RunningTotalBounds(scores[..|scores| - 1]);
    }
  }

  /** Every round is worth between 1 and 9 points, so a guide of n lines is
      worth between n and 9n. */
  lemma TotalBounds(reading: Reading, lines: seq<string>)
    requires Total(reading, lines).Some?
    ensures |lines| <= Total(reading, lines).value <= 9 * |lines|
  {
    RunningTotalBounds(Scores(reading, lines));
  }

  lemma {:induction false} RunningTotalAppend(a: seq<Option<nat>>, b: seq<Option<nat>>)
    ensures RunningTotal(a + b) == Add(RunningTotal(a), RunningTotal(b))
  {
    if |b| == 0 {
      assert a + b == a;
    } else {
      var init := b[..|b| - 1];
      assert (a + b)[..|a + b| - 1] == a + init;
      RunningTotalAppend(a, init);
    }
  }

  /** The total of two guides read one after the other is the sum of their
      totals. */
  lemma TotalAppend(reading: Reading, a: seq<string>, b: seq<string>)
    ensures Total(reading, a + b) == Add(Total(reading, a), Total(reading, b))
  {
    var sa, sb, sab := Scores(reading, a), Scores(reading, b), Scores(reading, a + b);
    forall k | 0 <= k < |sab| ensures sab[k] == (sa + sb)[k] {
      if k < |a| {
        assert (a + b)[k] == a[k];
      } else {
        assert (a + b)[k] == b[k - |a|];
      }
    }
    assert sab == sa + sb;
    RunningTotalAppend(sa, sb);
  }

  /** The last line of `a` stands somewhere in its reordering `b`; what is
      left of `b` without it is a reordering of the rest of `a`. */
  lemma PickLast(a: seq<string>, b: seq<string>) returns (j: nat)
    requires |a| > 0 && multiset(a) == multiset(b)
    ensures j < |b| && b[j] == a[|a| - 1]
    ensures b == b[..j] + [b[j]] + b[j + 1..]
    ensures multiset(a[..|a| - 1]) == multiset(b[..j] + b[j + 1..])
  {
    var x := a[|a| - 1];
    assert a == a[..|a| - 1] + [x];
    assert x in multiset(b) by {
      assert x in multiset(a);
    }
    j :| 0 <= j < |b| && b[j] == x;
    assert b == b[..j] + [x] + b[j + 1..];
    assert multiset(b) == multiset(b[..j]) + multiset{x} + multiset(b[j + 1..]);
    var init := a[..|a| - 1];
    assert multiset(a) == multiset(init) + multiset{x};
    assert multiset(b[..j] + b[j + 1..]) == multiset(b[..j]) + multiset(b[j + 1..]);
    assert multiset(init) == multiset(a) - multiset{x};
    assert multiset(b[..j] + b[j + 1..]) == multiset(b) - multiset{x};
  }

  /** Adding `x` before or after `q` gives the same total. */
  lemma AddSwap(p: Option<nat>, x: Option<nat>, q: Option<nat>)
    ensures Add(Add(p, x), q) == Add(Add(p, q), x)
  {
  }

  /** The order of the lines does not change the total: any reordering of a
      guide is worth the same, or aborts as well. */
  lemma {:induction false} TotalOfPermutation(reading: Reading, a: seq<string>, b: seq<string>)
    requires multiset(a) == multiset(b)
    ensures Total(reading, a) == Total(reading, b)
  {
    if |a| == 0 {
      assert |b| == |multiset(b)| == 0;
      assert a == b;
    } else {
      var j := PickLast(a, b);
      var init, x, before, after := a[..|a| - 1], [a[|a| - 1]], b[..j], b[j + 1..];
      assert a == init + x;
      assert b == (before + x) + after;
      TotalOfPermutation(reading, init, before + after);
      TotalAppend(reading, init, x);
      TotalAppend(reading, before + x, after);
      TotalAppend(reading, before, x);
      TotalAppend(reading, before, after);
      AddSwap(Total(reading, before), Total(reading, x), Total(reading, after));
    }
  }

  /** What a part returns: `Some(total)`, unless an `unwrap` aborted. */
  function Report(total: Option<nat>): (r: Exit<Option<nat>>)
    ensures r.Panic? <==> total.None?
    ensures total.Some? ==> r == Done(total)
  {
    match total
    case None => Panic
    case Some(t) => Done(Some(t))
  }

  /** One more line of a guide adds its score to the running total. */
  lemma ScoresStep(reading: Reading, lines: seq<string>, i: nat, result: nat)
    requires i < |lines| && RunningTotal(Scores(reading, lines)[..i]) == Some(result)
    ensures RunningTotal(Scores(reading, lines)[..i + 1]) == Add(Some(result), LineScore(reading, lines[i]))
  {
    var scores := Scores(reading, lines);
    assert scores[..i + 1][..i] == scores[..i];
  }

  /** A line that splits into two shapes scores our shape and the outcome
      of the round. */
  lemma ShapesLine(line: string, t: string, u: string)
    requires SplitOnce(line, ' ') == Some((t, u))
    requires ParseSymbol(t).Ok? && ParseSymbol(u).Ok?
    ensures LineScore(TwoShapes, line) ==
            Some(RoundPoints(ParseSymbol(u).value, Play(ParseSymbol(t).value, ParseSymbol(u).value).value))
  {
  }

  /** A line that splits into a shape and an outcome scores the shape
      `Expect` picks and that outcome. */
  lemma OutcomeLine(line: string, t: string, d: string)
    requires SplitOnce(line, ' ') == Some((t, d))
    requires ParseSymbol(t).Ok? && ParseOutcome(d).Ok?
    ensures LineScore(ShapeAndOutcome, line) ==
            Some(RoundPoints(Expect(ParseSymbol(t).value, ParseOutcome(d).value), ParseOutcome(d).value))
  {
  }

  /** A line of two shapes adds our shape's points and the outcome's to the
      running total of the first reading. */
  lemma ShapesStep(lines: seq<string>, i: nat, result: nat, t: string, u: string)
    requires i < |lines| && RunningTotal(Scores(TwoShapes, lines)[..i]) == Some(result)
    requires SplitOnce(lines[i], ' ') == Some((t, u))
    requires ParseSymbol(t).Ok? && ParseSymbol(u).Ok?
    ensures RunningTotal(Scores(TwoShapes, lines)[..i + 1]) ==
            Some(result + RoundPoints(ParseSymbol(u).value, Play(ParseSymbol(t).value, ParseSymbol(u).value).value))
  {
    ScoresStep(TwoShapes, lines, i, result);
    ShapesLine(lines[i], t, u);
  }

  /** A line of a shape and an outcome adds the points of the shape `Expect`
      picks and the outcome's to the running total of the second reading. */
  lemma OutcomeStep(lines: seq<string>, i: nat, result: nat, t: string, d: string)
    requires i < |lines| && RunningTotal(Scores(ShapeAndOutcome, lines)[..i]) == Some(result)
    requires SplitOnce(lines[i], ' ') == Some((t, d))
    requires ParseSymbol(t).Ok? && ParseOutcome(d).Ok?
    ensures RunningTotal(Scores(ShapeAndOutcome, lines)[..i + 1]) ==
            Some(result + ScoreSymbol(Expect(ParseSymbol(t).value, ParseOutcome(d).value)) + ScoreOutcome(ParseOutcome(d).value))
  {
    ScoresStep(ShapeAndOutcome, lines, i, result);
    OutcomeLine(lines[i], t, d);
  }

  /** A line without a space, or whose tokens do not parse, makes the whole
      guide abort. */
  lemma AbortsAt(reading: Reading, lines: seq<string>, i: nat)
    requires i < |lines|
    requires match SplitOnce(lines[i], ' ')
             case None => true
             case Some((t, u)) =>
               ParseSymbol(t).Err? ||
               (reading.TwoShapes? && ParseSymbol(u).Err?) ||
               (reading.ShapeAndOutcome? && ParseOutcome(u).Err?)
    ensures Total(reading, lines).None?
  {
    TotalAbortsIff(reading, lines);
  }

  /** `part_one`: every line holds the opponent's shape and ours; the round
      scores our shape plus the outcome `Play` gives. */
  method PartOne(lines: seq<string>) returns (r: Exit<Option<nat>>)
    ensures r == Report(Total(TwoShapes, lines))
  {
    var result: nat := 0;
    for i := 0 to |lines|
      invariant RunningTotal(Scores(TwoShapes, lines)[..i]) == Some(result)
    {
      var line := lines[i];
      var split := SplitOnce(line, ' ');
      if split.None? {
        AbortsAt(TwoShapes, lines, i);
        return Panic;
      }
      var (t, u) := split.value;
      var them := ParseSymbol(t);
      var us := ParseSymbol(u);
      if them.Err? || us.Err? {
        AbortsAt(TwoShapes, lines, i);
        return Panic;
      }
      ShapesStep(lines, i, result, t, u);
      // `play` answers every pair of shapes, so this `unwrap` cannot abort.
      var outcome := Play(them.value, us.value).value;
      // Each arm of the source's `match` on the outcome adds `score_s(us)`
      // and `score_d` of the very outcome matched: one addition says all three.
      result := result + ScoreSymbol(us.value) + ScoreOutcome(outcome);
    }
    assert Scores(TwoShapes, lines)[..|lines|] == Scores(TwoShapes, lines);
    return Done(Some(result));
  }

  /** `part_two`: every line holds the opponent's shape and the outcome we
      must reach; the round scores the shape `Expect` picks plus that outcome. */
  method PartTwo(lines: seq<string>) returns (r: Exit<Option<nat>>)
    ensures r == Report(Total(ShapeAndOutcome, lines))
  {
    var result: nat := 0;
    for i := 0 to |lines|
      invariant RunningTotal(Scores(ShapeAndOutcome, lines)[..i]) == Some(result)
    {
      var line := lines[i];
      var split := SplitOnce(line, ' ');
      if split.None? {
        AbortsAt(ShapeAndOutcome, lines, i);
        return Panic;
      }
      var (t, d) := split.value;
      var them := ParseSymbol(t);
      var desired := ParseOutcome(d);
      if them.Err? || desired.Err? {
        AbortsAt(ShapeAndOutcome, lines, i);
        return Panic;
      }
      OutcomeStep(lines, i, result, t, d);
      // Each arm of the source's `match` on the chosen shape adds `score_s`
      // of the very shape matched: one addition says all three.
      var shape := Expect(them.value, desired.value);
      result := result + ScoreSymbol(shape) + ScoreOutcome(desired.value);
    }
    assert Scores(ShapeAndOutcome, lines)[..|lines|] == Scores(ShapeAndOutcome, lines);
    return Done(Some(result));
  }

  // ---------------------------------------------------------------------
  // The worked example of the puzzle

  const Example: seq<string> := ["A Y", "B X", "C Z"]

  /** A line of two one-letter tokens splits at its space. */
  lemma SplitRound(x: char, y: char)
    requires x != ' '
    ensures SplitOnce([x, ' ', y], ' ') == Some(([x], [y]))
  {
    assert [x, ' ', y][1..] == [' ', y];
    assert [' ', y][1..] == [y];
    assert [x] + [] == [x];
  }

  /** The line the guide writes for a round of two shapes scores our shape
      and the outcome `Play` gives. */
  lemma ShapesRound(line: string, opp: Symbol, us: Symbol)
    requires line == OpponentToken(opp) + " " + SecondToken(us)
    ensures LineScore(TwoShapes, line) == Some(RoundPoints(us, Play(opp, us).value))
  {
    var x, y := OpponentToken(opp)[0], SecondToken(us)[0];
    assert line == [x, ' ', y];
    SplitRound(x, y);
    ParseTokens(opp, Draw);
    ParseTokens(us, Draw);
  }

  /** The line the guide writes for a shape and an outcome scores the shape
      `Expect` picks and that outcome. */
  lemma OutcomeRound(line: string, opp: Symbol, d: Outcome)
    requires line == OpponentToken(opp) + " " + OutcomeToken(d)
    ensures LineScore(ShapeAndOutcome, line) == Some(RoundPoints(Expect(opp, d), d))
  {
    var x, y := OpponentToken(opp)[0], OutcomeToken(d)[0];
    assert line == [x, ' ', y];
    SplitRound(x, y);
    ParseTokens(opp, d);
  }

  /** The total of a guide of three lines. */
  lemma TotalOfThree(reading: Reading, lines: seq<string>, a: nat, b: nat, c: nat)
    requires |lines| == 3
    requires LineScore(reading, lines[0]) == Some(a)
    requires LineScore(reading, lines[1]) == Some(b)
    requires LineScore(reading, lines[2]) == Some(c)
    ensures Total(reading, lines) == Some(a + b + c)
  {
    var s := Scores(reading, lines);
    assert s[0] == Some(a) && s[1] == Some(b) && s[2] == Some(c);
    SumOfThree(s, a, b, c);
  }

  lemma SumOfThree(s: seq<Option<nat>>, a: nat, b: nat, c: nat)
    requires |s| == 3 && s[0] == Some(a) && s[1] == Some(b) && s[2] == Some(c)
    ensures RunningTotal(s) == Some(a + b + c)
  {
    var s2, s1 := s[..2], s[..1];
    assert s2[..1] == s1 && s1[..0] == [];
    assert RunningTotal(s1) == Some(a);
    assert RunningTotal(s2) == Some(a + b);
  }

  /** The example reads A Y, B X, C Z. */
  predicate ExampleLayout(lines: seq<string>) {
    && |lines| == 3
    && lines[0] == OpponentToken(Rock) + " " + SecondToken(Paper)
    && lines[1] == OpponentToken(Paper) + " " + SecondToken(Rock)
    && lines[2] == OpponentToken(Scissor) + " " + SecondToken(Scissor)
  }

  /** Round by round, the example is worth 8, 1 and 6 points under the first
      reading, 15 in all. */
  lemma ExampleRoundsOne(lines: seq<string>)
    requires ExampleLayout(lines)
    ensures Total(TwoShapes, lines) == Some(15)
  {
    ShapesRound(lines[0], Rock, Paper);
    ShapesRound(lines[1], Paper, Rock);
    ShapesRound(lines[2], Scissor, Scissor);
    TotalOfThree(TwoShapes, lines, 8, 1, 6);
  }

  /** Under the second reading the same rounds are worth 4, 1 and 7: Y asks
      for a draw, X for a loss and Z for a win. */
  lemma ExampleRoundsTwo(lines: seq<string>)
    requires ExampleLayout(lines)
    ensures Total(ShapeAndOutcome, lines) == Some(12)
  {
    assert SecondToken(Paper) == OutcomeToken(Draw);
    assert SecondToken(Rock) == OutcomeToken(Lose);
    assert SecondToken(Scissor) == OutcomeToken(Win);
    OutcomeRound(lines[0], Rock, Draw);
    OutcomeRound(lines[1], Paper, Lose);
    OutcomeRound(lines[2], Scissor, Win);
    TotalOfThree(ShapeAndOutcome, lines, 4, 1, 7);
  }

  /** The example guide totals 15 under the first reading and 12 under the
      second. */
  lemma ExampleTotals()
    ensures Total(TwoShapes, Example) == Some(15)
    ensures Total(ShapeAndOutcome, Example) == Some(12)
  {
    assert ExampleLayout(Example);
    ExampleRoundsOne(Example);
    ExampleRoundsTwo(Example);
  }

  /** A line without a space, or with an unknown shape, aborts the guide
      instead of adding 0. */
  lemma ExampleAborts()
    ensures Total(TwoShapes, ["A"]) == None && Total(ShapeAndOutcome, ["A"]) == None
    ensures Total(TwoShapes, ["D Y"]) == None && Total(ShapeAndOutcome, ["D Y"]) == None
  {
    assert LineScore(TwoShapes, "A").None?;
    assert LineScore(ShapeAndOutcome, "A").None?;
    SplitRound('D', 'Y');
    assert LineScore(TwoShapes, "D Y").None?;
    assert LineScore(ShapeAndOutcome, "D Y").None?;
    assert Scores(TwoShapes, ["A"]) == [None];
    assert Scores(ShapeAndOutcome, ["A"]) == [None];
    assert Scores(TwoShapes, ["D Y"]) == [None];
    assert Scores(ShapeAndOutcome, ["D Y"]) == [None];
  }

  /** Both parts run on the example and on the two malformed guides. */
  method RunExample() returns (one: Exit<Option<nat>>, two: Exit<Option<nat>>,
                               noSpace: Exit<Option<nat>>, badShape: Exit<Option<nat>>)
    ensures one == Done(Some(15)) && two == Done(Some(12))
    ensures noSpace == Panic && badShape == Panic
  {
    ExampleTotals();
    ExampleAborts();
    one := PartOne(Example);
    two := PartTwo(Example);
    noSpace := PartOne(["A"]);
    badShape := PartTwo(["D Y"]);
  }
}
