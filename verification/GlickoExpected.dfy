/**
 * Who is expected to win, and Glickman's formulas written out (packages/shared/src/rating/glicko2.ts). The functions of
 * Glicko are compared with them here, each multiplied out so that no root and no quotient is left.
 */
module GlickoExpected {
  import opened Common
  import opened Glicko

  // ---------- Formulas ----------

  /** Step 2: a rating is 1500 and so many times 173.7178, a deviation so many times 173.7178. */
  lemma ScaleFormula(r: real)
    ensures ToMu(r) * 173.7178 == r - 1500.0 && ToPhi(r) * 173.7178 == r
  {
  }

  /** Step 3: g(phi) squared is pi squared over pi squared plus 3 phi squared. */
  lemma GFormula(m: Math, phi: real)
    requires Valid(m)
    ensures Times(Sq(G(m, phi)), Sq(m.pi) + 3.0 * Sq(phi)) == Sq(m.pi)
  {
    var p, q := Sq(m.pi), 3.0 * Sq(phi);
    var under := 1.0 + q / p;
    Quotient(q, p, -0.5);
    InverseSquare(m, under);
    hide Valid;
    assert Sq(G(m, phi)) == 1.0 / under;
    hide G, Sq;
    assert p > 0.0;
    assert under * p == p + q;
    Quotient(1.0, under, 1.0 / under);
    assert (1.0 / under) * under == 1.0;
    Associates(1.0 / under, under, p);
  }

  lemma Associates(x: real, y: real, z: real)
    ensures x * (y * z) == (x * y) * z
  {
  }

  /** The odds of an expected score: e to the minus g(phi) (mu - mu_j) to one. */
  lemma EFormula(m: Math, mu: real, muJ: real, phiJ: real)
    requires Valid(m)
    ensures E(m, mu, muJ, phiJ) * m.exp(-(G(m, phiJ) * (mu - muJ))) == 1.0 - E(m, mu, muJ, phiJ)
  {
    var x := m.exp(-Times(G(m, phiJ), mu - muJ));
    assert x > 0.0;
    hide G, Valid;
    Quotient(1.0, 1.0 + x, E(m, mu, muJ, phiJ));
  }

  /** Steps 3 and 4: what a game adds to 1 / v, and to the sum of gains. */
  lemma WeightFormula(m: Math, player: Rating, game: Game)
    requires Valid(m)
    ensures var g, e := G(m, game.rd / 173.7178), Expected(m, player, game);
            Weight(m, player, game) == g * g * (e * (1.0 - e)) && Gain(m, player, game) == g * (game.score - e)
  {
    ScaleFormula(game.rd);
    assert ToPhi(game.rd) == game.rd / 173.7178;
    hide G, Expected, ToPhi;
  }

  lemma ExpectedFormula(m: Math, player: Rating, game: Game)
    requires Valid(m)
    ensures Expected(m, player, game) ==
            E(m, (player.rating - 1500.0) / 173.7178, (game.rating - 1500.0) / 173.7178, game.rd / 173.7178)
  {
    hide E;
  }

  /** Step 5: f as it is written there. */
  lemma FFormula(m: Math, p: Period, x: real)
    requires Valid(m) && Proper(p)
    ensures var ex, s := m.exp(x), p.phi * p.phi + p.v;
            && s + ex > 0.0 && p.tau * p.tau > 0.0
            && F(m, p, x) == (ex * (p.delta * p.delta - p.phi * p.phi - p.v - ex)) / (2.0 * ((s + ex) * (s + ex)))
                             - (x - m.log(p.sigma * p.sigma)) / (p.tau * p.tau)
  {
    var ex := m.exp(x);
    assert ex > 0.0;
    SquareIs(p.phi);
    SquareIs(p.delta);
    SquareIs(p.tau);
    SquareIs(p.sigma);
    SquareIs(Spread(p) + ex);
    assert p.tau * p.tau > 0.0;
    hide Valid, Sq;
    PullIs(p, ex);
  }

  lemma PullIs(p: Period, ex: real)
    requires Proper(p) && ex > 0.0
    ensures Sq(Spread(p) + ex) > 0.0
    ensures Pull(p, ex) == (ex * (Surplus(p) - ex)) / (2.0 * Sq(Spread(p) + ex))
  {
    hide Sq, Spread, Surplus;
  }

  /**
   * A round of Step 5, as it is written there: C where the line through the two points crosses zero, then B for A when
   * f changes sign between C and B, and otherwise half of what stands for f at A.
   */
  lemma RoundFormula(m: Math, p: Period, s: Search)
    requires Valid(m) && Proper(p) && Opposite(s.fa, s.fb)
    ensures s.fb - s.fa != 0.0
    ensures var c := s.a + ((s.a - s.b) * s.fa) / (s.fb - s.fa);
            var fc := F(m, p, c);
            Next(m, p, s) == if fc * s.fb <= 0.0 then Search(s.b, c, s.fb, fc) else Search(s.a, c, s.fa / 2.0, fc)
  {
    SecantFormula(s.a, s.b, s.fa, s.fb);
    var c := Secant(s.a, s.b, s.fa, s.fb);
    TimesIs(F(m, p, c), s.fb);
    hide Valid, F, Secant, Times;
  }

  lemma SecantFormula(a: real, b: real, fa: real, fb: real)
    requires Opposite(fa, fb)
    ensures fb - fa != 0.0 && Secant(a, b, fa, fb) == a + ((a - b) * fa) / (fb - fa)
  {
  }

  /** What Step 5 is given: v and delta of Steps 3 and 4, and tau 0.5 and epsilon a millionth when none are given. */
  lemma PeriodFormula(m: Math, player: Rating, games: seq<Game>, o: Options)
    requires Valid(m) && games != [] && Usable(o) && player.volatility != 0.0
    ensures var p := PeriodOf(m, player, games, o);
            && p.sigma == player.volatility && p.phi * 173.7178 == player.rd
            && p.v * Information(m, player, games) == 1.0
            && p.delta == p.v * Gains(m, player, games)
            && (o.tau == None ==> p.tau == 0.5) && (o.tau.Some? ==> p.tau == o.tau.value)
            && (o.epsilon == None ==> p.eps == 0.000001) && (o.epsilon.Some? ==> p.eps == o.epsilon.value)
  {
    hide *;
    PeriodFields(m, player, games, o);
    ScaleFormula(player.rd);
    OneOver(Information(m, player, games));
    TimesIs(1.0 / Information(m, player, games), Gains(m, player, games));
  }

  lemma PeriodFields(m: Math, player: Rating, games: seq<Game>, o: Options)
    requires Valid(m) && games != [] && Usable(o) && player.volatility != 0.0
    ensures Information(m, player, games) > 0.0
    ensures var v := 1.0 / Information(m, player, games);
            PeriodOf(m, player, games, o) ==
            Period(player.volatility, ToPhi(player.rd), v, Times(v, Gains(m, player, games)),
                   if o.tau.Some? then o.tau.value else 0.5, if o.epsilon.Some? then o.epsilon.value else 0.000001)
  {
    hide Valid, Information, Gains, Times, ToPhi;
  }

  lemma OneOver(x: real)
    requires x > 0.0
    ensures (1.0 / x) * x == 1.0
  {
  }

  lemma TimesIs(x: real, y: real)
    ensures Times(x, y) == x * y
  {
  }

  /** Step 6: the squared deviation grows by the squared volatility. */
  lemma InflatedFormula(m: Math, rd: real, volatility: real)
    requires Valid(m)
    ensures var r := Inflated(m, rd, volatility);
            r >= 0.0 && r * r == (rd / 173.7178) * (rd / 173.7178) + volatility * volatility
  {
    var under := Sq(ToPhi(rd)) + Sq(volatility);
    assert m.sqrt(under) >= 0.0 && m.sqrt(under) * m.sqrt(under) == under;
    assert ToPhi(rd) == rd / 173.7178;
    hide Valid;
  }

  /** A new deviation stays between the two limits, 0 and 350 when none are given, and is only changed by them. */
  lemma ClampFormula(rd: real, o: Options)
    ensures var r := ClampRd(rd, o);
            var lo := if o.minRd.Some? then o.minRd.value else 0.0;
            var hi := if o.maxRd.Some? then o.maxRd.value else 350.0;
            && r <= hi && (lo <= hi ==> lo <= r)
            && (lo <= rd <= hi ==> r == rd)
            && (lo <= hi && rd < lo ==> r == lo) && (rd > hi ==> r == hi)
  {
  }

  /** The opponent of a team match is the mean of the other team. */
  lemma AgainstFormula(team: seq<Rating>, score: real)
    requires team != []
    ensures var game := Against(team, score);
            && game.score == score
            && game.rating * |team| as real == Sum(RatingsOf(team)) && game.rd * |team| as real == Sum(RdsOf(team))
            && |RatingsOf(team)| == |RdsOf(team)| == |team|
            && forall i | 0 <= i < |team| :: RatingsOf(team)[i] == team[i].rating && RdsOf(team)[i] == team[i].rd
  {
    hide Sum;
  }

  // ---------- Several games ----------

  lemma LastGame(m: Math, player: Rating, games: seq<Game>, last: Game)
    requires Valid(m)
    ensures Information(m, player, games + [last]) == Information(m, player, games) + Weight(m, player, last)
    ensures Gains(m, player, games + [last]) == Gains(m, player, games) + Gain(m, player, last)
  {
    hide Valid, Weight, Gain;
    assert (games + [last])[..|games|] == games;
  }

  lemma {:induction false} OneGameOut(m: Math, player: Rating, a: seq<Game>, game: Game, b: seq<Game>)
    requires Valid(m)
    ensures Information(m, player, a + [game] + b) == Information(m, player, a + b) + Weight(m, player, game)
    ensures Gains(m, player, a + [game] + b) == Gains(m, player, a + b) + Gain(m, player, game)
    decreases |b|
  {
    hide *;
    if b == [] {
      assert a + [game] + b == a + [game] && a + b == a;
      LastGame(m, player, a, game);
    } else {
      var less, last := b[..|b| - 1], b[|b| - 1];
      assert a + [game] + b == (a + [game] + less) + [last] && a + b == (a + less) + [last];
      OneGameOut(m, player, a, game, less);
      LastGame(m, player, a + [game] + less, last);
      LastGame(m, player, a + less, last);
    }
  }

  lemma TakeOut(games: seq<Game>, last: Game, also: seq<Game>) returns (a: seq<Game>, b: seq<Game>)
    requires multiset(games + [last]) == multiset(also)
    ensures also == a + [last] + b && multiset(games) == multiset(a + b)
  {
    assert last in multiset(also);
    var j :| 0 <= j < |also| && also[j] == last;
    a, b := also[..j], also[j + 1..];
    assert also == a + [last] + b;
    calc {
      multiset(games) + multiset{last};
      multiset(games + [last]);
      multiset(a + [last] + b);
      multiset(a) + multiset{last} + multiset(b);
      multiset(a + b) + multiset{last};
    }
    SameLess(multiset(games), multiset(a + b), last);
  }

  lemma SameLess(x: multiset<Game>, y: multiset<Game>, last: Game)
    requires x + multiset{last} == y + multiset{last}
    ensures x == y
  {
    assert (x + multiset{last}) - multiset{last} == x && (y + multiset{last}) - multiset{last} == y;
  }

  /** Every game of a period counts once and the order of the games does not matter. */
  lemma {:induction false} OrderOfGames(m: Math, player: Rating, games: seq<Game>, also: seq<Game>)
    requires Valid(m) && multiset(games) == multiset(also)
    ensures Information(m, player, games) == Information(m, player, also)
    ensures Gains(m, player, games) == Gains(m, player, also)
  {
    hide *;
    if games == [] {
      assert |also| == |multiset(also)| == 0;
    } else {
      var less, last := games[..|games| - 1], games[|games| - 1];
      assert games == less + [last];
      var a, b := TakeOut(less, last, also);
      OrderOfGames(m, player, less, a + b);
      OneGameOut(m, player, a, last, b);
      LastGame(m, player, less, last);
    }
  }

  /** So a player has one new rating whatever the order the games of a period are given in. */
  lemma RatingInAnyOrder(m: Math, player: Rating, games: seq<Game>, also: seq<Game>, o: Options, now: Rating, phi: real,
      b0: real, n: nat)
    requires Valid(m) && multiset(games) == multiset(also) && games != [] && also != []
    requires Usable(o) && player.volatility != 0.0
    ensures Rated(m, player, games, o, now, phi, b0, n) <==> Rated(m, player, also, o, now, phi, b0, n)
  {
    OrderOfGames(m, player, games, also);
    hide Valid, Information, Gains, Solves, Inflated, ClampRd, Sq, Times;
  }

  // ---------- Who is expected to win ----------

  lemma EGrows(m: Math, mu: real, nu: real, muJ: real, nuJ: real, phiJ: real)
    requires Valid(m) && mu - muJ < nu - nuJ
    ensures E(m, mu, muJ, phiJ) < E(m, nu, nuJ, phiJ)
  {
    var g := G(m, phiJ);
    TimesDiff(g, nu - nuJ, mu - muJ);
    var x, y := m.exp(-Times(g, mu - muJ)), m.exp(-Times(g, nu - nuJ));
    assert 0.0 < y < x;
    hide Valid, G, Times;
    InverseLess(1.0 + y, 1.0 + x);
  }

  /** A stronger player is expected to score more, and less against a stronger opponent. */
  lemma StrongerScoresMore(m: Math, weak: Rating, strong: Rating, game: Game, harder: Game)
    requires Valid(m) && weak.rating < strong.rating && game.rating < harder.rating && game.rd == harder.rd
    ensures Expected(m, weak, game) < Expected(m, strong, game)
    ensures Expected(m, weak, harder) < Expected(m, weak, game)
  {
    Scaled(weak.rating, strong.rating);
    Scaled(game.rating, harder.rating);
    hide Valid, E, ToMu, ToPhi;
    EGrows(m, ToMu(weak.rating), ToMu(strong.rating), ToMu(game.rating), ToMu(game.rating), ToPhi(game.rd));
    EGrows(m, ToMu(weak.rating), ToMu(weak.rating), ToMu(harder.rating), ToMu(game.rating), ToPhi(game.rd));
  }

  lemma Scaled(x: real, y: real)
    requires x < y
    ensures ToMu(x) < ToMu(y)
  {
  }

  /** Equals are expected to draw: one half, whatever the deviation. */
  lemma EqualsDraw(m: Math, player: Rating, game: Game)
    requires Valid(m) && player.rating == game.rating
    ensures Expected(m, player, game) == 0.5
  {
    assert Times(G(m, ToPhi(game.rd)), 0.0) == 0.0;
    assert m.exp(-0.0) == 1.0;
    hide G, Valid;
  }

  /** So more than one half is expected exactly of the stronger of two, and less exactly of the weaker. */
  lemma FavouriteIsStronger(m: Math, player: Rating, game: Game)
    requires Valid(m)
    ensures Expected(m, player, game) > 0.5 <==> player.rating > game.rating
    ensures Expected(m, player, game) == 0.5 <==> player.rating == game.rating
  {
    var level := player.(rating := game.rating);
    EqualsDraw(m, level, game);
    hide Valid, Expected;
    var harder := game.(rating := game.rating + 1.0);
    if player.rating > game.rating {
      StrongerScoresMore(m, level, player, game, harder);
    } else if player.rating < game.rating {
      StrongerScoresMore(m, player, level, game, harder);
    } else {
      assert player == level;
    }
  }

  /** After a drawn team match exactly those rise who were rated below the mean of the other team, and exactly those
      fall who were above. */
  lemma DrawLevels(m: Math, before: Rating, now: Rating, opponents: seq<Rating>, o: Options)
    requires Valid(m) && Usable(o) && before.volatility != 0.0
    requires opponents != [] && Moved(m, before, now, Against(opponents, 0.5), o)
    ensures now.rating > before.rating <==> before.rating < Mean(RatingsOf(opponents))
    ensures now.rating < before.rating <==> before.rating > Mean(RatingsOf(opponents))
  {
    var game := Against(opponents, 0.5);
    FavouriteIsStronger(m, before, game);
    hide Valid, Rated, Expected, Mean;
  }

  /** The same win is worth more to the weaker of two players with the same deviation. */
  lemma UnderdogGainsMore(m: Math, weak: Rating, strong: Rating, game: Game)
    requires Valid(m) && weak.rating < strong.rating
    ensures Gain(m, weak, game) > Gain(m, strong, game)
  {
    StrongerScoresMore(m, weak, strong, game, game.(rating := game.rating + 1.0));
    hide Valid, Expected;
    TimesDiff(G(m, ToPhi(game.rd)), game.score - Expected(m, weak, game), game.score - Expected(m, strong, game));
  }
}
