/** `fit` and `expected_goals`: decayed attack and defence strengths from a match history. */
module PoissonFit {
  import opened RealArithmetic
  import opened MapSums
  import opened MatchHistory

  const HALF_LIFE_DAYS: real := 182.5
  const MIN_SAMPLE: real := 6.0
  const SECONDS_PER_DAY: real := 86400.0

  /*************************** Recency weights ***************************/

  /** The anchor date and the function x -> 0.5^x. */
  datatype Decay = Decay(asOf: int, halving: real -> real) {

    /** All that fitting needs of the weights. */
    ghost predicate NonNegative() {
      forall x | 0.0 <= x :: 0.0 <= halving(x)
    }

    /** The laws of x -> 0.5^x on nonnegative ages. */
    ghost predicate IsHalving() {
      && halving(0.0) == 1.0 && halving(1.0) == 0.5
      && (forall x | 0.0 <= x :: 0.0 <= halving(x) <= 1.0)
      && (forall x, y | 0.0 <= x && 0.0 <= y :: halving(x + y) == halving(x) * halving(y))
    }

    function AgeDays(date: int): (age: real)
      ensures 0.0 <= age
    {
      if date < asOf then (asOf - date) as real / SECONDS_PER_DAY else 0.0
    }

    function Weight(m: MatchResult): real {
      halving(AgeDays(m.utcDate) / HALF_LIFE_DAYS)
    }
  }

  /*************************** Weighted sums over a history ***************************/

  datatype LeagueRates = LeagueRates(home: real, away: real)

  /** The five per-team dictionaries. */
  datatype Tally = Scored | Conceded | ScoredBaseline | ConcededBaseline | Sample {

    function HomeCredit(rates: LeagueRates, m: MatchResult): real {
      match this
      case Scored => m.homeGoals as real
      case Conceded => m.awayGoals as real
      case ScoredBaseline => rates.home
      case ConcededBaseline => rates.away
      case Sample => 1.0
    }

    function AwayCredit(rates: LeagueRates, m: MatchResult): real {
      match this
      case Scored => m.awayGoals as real
      case Conceded => m.homeGoals as real
      case ScoredBaseline => rates.away
      case ConcededBaseline => rates.home
      case Sample => 1.0
    }
  }

  /** What a weighted sum adds up per match. */
  datatype Measure =
    | One
    | HomeGoals
    | AwayGoals
    | CreditTo(tally: Tally, rates: LeagueRates, key: Key)
    | CreditBoth(tally: Tally, rates: LeagueRates)
  {
    function Of(m: MatchResult): real {
      match this
      case One => 1.0
      case HomeGoals => m.homeGoals as real
      case AwayGoals => m.awayGoals as real
      case CreditTo(t, r, k) =>
        (if k == HomeKey(m) then t.HomeCredit(r, m) else 0.0) + (if k == AwayKey(m) then t.AwayCredit(r, m) else 0.0)
      case CreditBoth(t, r) => t.HomeCredit(r, m) + t.AwayCredit(r, m)
    }

    ghost predicate NonNegative() {
      forall m :: 0.0 <= Of(m)
    }
  }

  function Term(decay: Decay, m: MatchResult, f: Measure): real {
    decay.Weight(m) * f.Of(m)
  }

  function Sum(decay: Decay, history: seq<MatchResult>, f: Measure): real {
    if history == [] then 0.0
    else
      var n := |history| - 1;
      Sum(decay, history[..n], f) + Term(decay, history[n], f)
  }

  lemma SumAppend(decay: Decay, history: seq<MatchResult>, m: MatchResult, f: Measure)
    ensures Sum(decay, history + [m], f) == Sum(decay, history, f) + Term(decay, m, f)
  {
    hide Term;
    assert (history + [m])[..|history|] == history;
  }

  lemma {:induction false} SumSign(decay: Decay, history: seq<MatchResult>, f: Measure)
    requires decay.NonNegative() && f.NonNegative()
    ensures 0.0 <= Sum(decay, history, f)
  {
    hide Term;
    if history != [] {
      var n := |history| - 1;
      SumSign(decay, history[..n], f);
      TermSign(decay, history[n], f);
    }
  }

  lemma WeightSign(decay: Decay, m: MatchResult)
    requires decay.NonNegative()
    ensures 0.0 <= decay.Weight(m)
  {
    assert 0.0 <= decay.AgeDays(m.utcDate) / HALF_LIFE_DAYS;
  }

  lemma TermSign(decay: Decay, m: MatchResult, f: Measure)
    requires decay.NonNegative() && f.NonNegative()
    ensures 0.0 <= Term(decay, m, f)
  {
    hide Decay.Weight, Measure.Of;
    WeightSign(decay, m);
    MulNonNegative(decay.Weight(m), f.Of(m));
  }

  /** A nonnegative measure sums to zero exactly when every weighted term is zero. */
  lemma {:induction false} SumZero(decay: Decay, history: seq<MatchResult>, f: Measure)
    requires decay.NonNegative() && f.NonNegative()
    ensures Sum(decay, history, f) == 0.0 <==> forall i | 0 <= i < |history| :: Term(decay, history[i], f) == 0.0
  {
    hide Term;
    if history != [] {
      var n := |history| - 1;
      SumZero(decay, history[..n], f);
      SumSign(decay, history[..n], f);
      TermSign(decay, history[n], f);
      assert forall i | 0 <= i < n :: history[..n][i] == history[i];
    }
  }

  /** Removing any one match takes exactly its term away. */
  lemma {:induction false} SumRemove(decay: Decay, history: seq<MatchResult>, i: nat, f: Measure)
    requires i < |history|
    ensures Sum(decay, history, f) == Sum(decay, history[..i] + history[i + 1..], f) + Term(decay, history[i], f)
  {
    hide Term;
    var n := |history| - 1;
    if i == n {
      assert history[..i] + history[i + 1..] == history[..n];
    } else {
      SumRemove(decay, history[..n], i, f);
      var rest := history[..n][..i] + history[..n][i + 1..];
      assert history[..i] + history[i + 1..] == rest + [history[n]];
      SumAppend(decay, rest, history[n], f);
    }
  }

  lemma LastOccurs(history: seq<MatchResult>, other: seq<MatchResult>) returns (i: nat)
    requires history != [] && multiset(history) == multiset(other)
    ensures i < |other| && other[i] == history[|history| - 1]
    ensures multiset(history[..|history| - 1]) == multiset(other[..i] + other[i + 1..])
  {
    var n := |history| - 1;
    assert history == history[..n] + [history[n]];
    assert history[n] in multiset(other);
    i :| 0 <= i < |other| && other[i] == history[n];
    assert other == other[..i] + [other[i]] + other[i + 1..];
    assert multiset(history) - multiset{history[n]} == multiset(history[..n]);
    assert multiset(other) - multiset{other[i]} == multiset(other[..i] + other[i + 1..]);
  }

  /** Input order does not reach a weighted sum. */
  lemma {:induction false} SumPermutation(decay: Decay, history: seq<MatchResult>, other: seq<MatchResult>, f: Measure)
    requires multiset(history) == multiset(other)
    ensures Sum(decay, history, f) == Sum(decay, other, f)
    decreases |history|
  {
    hide Term, Sum;
    if history == [] {
      assert |other| == |multiset(other)| == 0;
    } else {
      var i := LastOccurs(history, other);
      SumPermutation(decay, history[..|history| - 1], other[..i] + other[i + 1..], f);
      SumRemove(decay, other, i, f);
      SumRemove(decay, history, |history| - 1, f);
      assert history[..|history| - 1] + history[|history|..] == history[..|history| - 1];
    }
  }

  lemma SumStep(decay: Decay, history: seq<MatchResult>, f: Measure)
    ensures Sum(decay, [], f) == 0.0
    ensures history != []
        ==> Sum(decay, history, f) == Sum(decay, history[..|history| - 1], f) + Term(decay, history[|history| - 1], f)
  {
  }

  /** Scaling every weight scales the sum. */
  lemma {:induction false} SumScales(decay: Decay, later: Decay, c: real, history: seq<MatchResult>, f: Measure)
    requires forall i | 0 <= i < |history| :: later.Weight(history[i]) == c * decay.Weight(history[i])
    ensures Sum(later, history, f) == c * Sum(decay, history, f)
  {
    hide Term, Sum, Decay.Weight;
    SumStep(decay, history, f);
    SumStep(later, history, f);
    if history != [] {
      var n := |history| - 1;
      SumScales(decay, later, c, history[..n], f);
      TermScales(decay, later, c, history[n], f);
      Distribute(c, Sum(decay, history[..n], f), Term(decay, history[n], f));
    }
  }

  lemma TermScales(decay: Decay, later: Decay, c: real, m: MatchResult, f: Measure)
    requires later.Weight(m) == c * decay.Weight(m)
    ensures Term(later, m, f) == c * Term(decay, m, f)
  {
    hide Decay.Weight, Measure.Of;
    assert (c * decay.Weight(m)) * f.Of(m) == c * (decay.Weight(m) * f.Of(m));
  }

  lemma Distribute(c: real, x: real, y: real)
    ensures c * (x + y) == c * x + c * y
  {
  }

  /*************************** The fitted model ***************************/

  datatype Model = Model(rates: LeagueRates, attack: map<Key, real>, defence: map<Key, real>)

  const EMPTY: Model := Model(LeagueRates(0.0, 0.0), map[], map[])

  function Shrink(observed: real, expected: real, sample: real): real {
    if expected <= 0.0 || sample <= 0.0 then 1.0
    else
      var confidence := sample / (sample + MIN_SAMPLE);
      confidence * (observed / expected) + (1.0 - confidence) * 1.0
  }

  function RatesOf(decay: Decay, history: seq<MatchResult>): LeagueRates
    requires 0.0 < Sum(decay, history, One)
  {
    var total := Sum(decay, history, One);
    LeagueRates(Sum(decay, history, HomeGoals) / total, Sum(decay, history, AwayGoals) / total)
  }

  function TallyOf(decay: Decay, history: seq<MatchResult>, t: Tally, rates: LeagueRates, key: Key): real {
    Sum(decay, history, CreditTo(t, rates, key))
  }

  function Attack(decay: Decay, history: seq<MatchResult>, key: Key): real
    requires 0.0 < Sum(decay, history, One)
  {
    var rates := RatesOf(decay, history);
    Shrink(TallyOf(decay, history, Scored, rates, key), TallyOf(decay, history, ScoredBaseline, rates, key),
           TallyOf(decay, history, Sample, rates, key))
  }

  function Defence(decay: Decay, history: seq<MatchResult>, key: Key): real
    requires 0.0 < Sum(decay, history, One)
  {
    var rates := RatesOf(decay, history);
    Shrink(TallyOf(decay, history, Conceded, rates, key), TallyOf(decay, history, ConcededBaseline, rates, key),
           TallyOf(decay, history, Sample, rates, key))
  }

  /** What `fit` should return, team by team, without any accumulation order. */
  function FittedModel(decay: Decay, history: seq<MatchResult>): Model {
    if Sum(decay, history, One) <= 0.0 then EMPTY
    else
      Model(RatesOf(decay, history),
            map key | key in Teams(history) :: Attack(decay, history, key),
            map key | key in Teams(history) :: Defence(decay, history, key))
  }

  /*************************** The accumulation loop ***************************/

  function Add(m: map<Key, real>, key: Key, x: real): map<Key, real> {
    m[key := GetOr(m, key, 0.0) + x]
  }

  /** One dictionary after the loop has seen the history. */
  function Accumulated(decay: Decay, history: seq<MatchResult>, t: Tally, rates: LeagueRates): map<Key, real> {
    if history == [] then map[]
    else
      var n := |history| - 1;
      var m := history[n];
      Add(Add(Accumulated(decay, history[..n], t, rates), HomeKey(m), HomeTerm(decay, m, t, rates)), AwayKey(m),
          AwayTerm(decay, m, t, rates))
  }

  lemma SplitCredit(w: real, x: real, y: real, home: bool, away: bool)
    ensures w * ((if home then x else 0.0) + (if away then y else 0.0))
            == (if home then w * x else 0.0) + (if away then w * y else 0.0)
  {
  }

  function HomeTerm(decay: Decay, m: MatchResult, t: Tally, rates: LeagueRates): real {
    decay.Weight(m) * t.HomeCredit(rates, m)
  }

  function AwayTerm(decay: Decay, m: MatchResult, t: Tally, rates: LeagueRates): real {
    decay.Weight(m) * t.AwayCredit(rates, m)
  }

  lemma CreditTerm(decay: Decay, m: MatchResult, t: Tally, rates: LeagueRates, key: Key)
    ensures Term(decay, m, CreditTo(t, rates, key)) == (if key == HomeKey(m) then HomeTerm(decay, m, t, rates) else 0.0)
                                                  + (if key == AwayKey(m) then AwayTerm(decay, m, t, rates) else 0.0)
    ensures Term(decay, m, CreditBoth(t, rates)) == HomeTerm(decay, m, t, rates) + AwayTerm(decay, m, t, rates)
  {
    hide Decay.Weight, Tally.HomeCredit, Tally.AwayCredit;
    SplitCredit(decay.Weight(m), t.HomeCredit(rates, m), t.AwayCredit(rates, m), key == HomeKey(m), key == AwayKey(m));
    SplitCredit(decay.Weight(m), t.HomeCredit(rates, m), t.AwayCredit(rates, m), true, true);
  }

  lemma AddAt(m: map<Key, real>, k: Key, x: real, key: Key)
    ensures GetOr(Add(m, k, x), key, 0.0) == GetOr(m, key, 0.0) + if key == k then x else 0.0
  {
  }

  /** The loop's dictionaries hold exactly the per-team weighted sums. */
  lemma {:induction false} AccumulatedIsTally(decay: Decay, history: seq<MatchResult>, t: Tally, rates: LeagueRates,
                                              key: Key)
    ensures key in Accumulated(decay, history, t, rates) <==> key in Teams(history)
    ensures GetOr(Accumulated(decay, history, t, rates), key, 0.0) == TallyOf(decay, history, t, rates, key)
  {
    hide Term, HomeTerm, AwayTerm, GetOr;
    if history == [] {
      assert GetOr(map[], key, 0.0) == 0.0 by { EmptyAt(key); }
    } else {
      var n := |history| - 1;
      var m := history[n];
      AccumulatedIsTally(decay, history[..n], t, rates, key);
      assert history == history[..n] + [m];
      TeamsAppend(history[..n], m);
      CreditTerm(decay, m, t, rates, key);
      var before := Accumulated(decay, history[..n], t, rates);
      AddAt(before, HomeKey(m), HomeTerm(decay, m, t, rates), key);
      AddAt(Add(before, HomeKey(m), HomeTerm(decay, m, t, rates)), AwayKey(m), AwayTerm(decay, m, t, rates), key);
    }
  }

  lemma EmptyAt(key: Key)
    ensures GetOr(map[], key, 0.0) == 0.0
  {
  }

  lemma AddTotal(m: map<Key, real>, key: Key, x: real)
    ensures MapSum(Add(m, key, x)) == MapSum(m) + x
  {
    MapSumUpdate(m, key, GetOr(m, key, 0.0) + x);
  }

  /** Each match pays its two credits into the dictionary and nothing else. */
  lemma {:induction false} AccumulatedTotal(decay: Decay, history: seq<MatchResult>, t: Tally, rates: LeagueRates)
    ensures MapSum(Accumulated(decay, history, t, rates)) == Sum(decay, history, CreditBoth(t, rates))
  {
    hide Term, Decay.Weight, HomeTerm, AwayTerm, Add;
    if history != [] {
      var n := |history| - 1;
      var m := history[n];
      AccumulatedTotal(decay, history[..n], t, rates);
      var before := Accumulated(decay, history[..n], t, rates);
      AddTotal(before, HomeKey(m), HomeTerm(decay, m, t, rates));
      AddTotal(Add(before, HomeKey(m), HomeTerm(decay, m, t, rates)), AwayKey(m), AwayTerm(decay, m, t, rates));
      CreditTerm(decay, m, t, rates, HomeKey(m));
    }
  }
}
