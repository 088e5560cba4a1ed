/** The genetic search as a function of its random choices, and what it never loses. */
module GeneticSpec {
  import opened Common
  import opened Sorting

  datatype Individual<+G> = Individual(genes: G, fitness: real)

  datatype GAConfig = GAConfig(population: nat, generations: nat, eliteRatio: real, tournamentSize: nat, seedRatio: real, earlyStop: int)

  /** Every random choice of a run: the mutated i-th seed, the i-th random rulebook, the contenders of a tournament
      (generation, slot, parent, size of the population), and the mutated child of two parents (generation, slot). */
  datatype Chance<!G> = Chance(
    mutatedSeed: (nat, G) -> G, random: nat -> G,
    contenders: (nat, nat, nat, nat) -> seq<nat>, child: (nat, nat, G, G) -> G)

  datatype GAResult<+G> = GAResult(best: Individual<G>, history: seq<(nat, real, real)>, finalPopulation: seq<Individual<G>>)

  /** A tournament draws the asked number of distinct members. */
  ghost predicate FairDraws<G>(chance: Chance<G>, k: nat) {
    forall gen: nat, slot: nat, parent: nat, n: nat :: n > 0 ==>
      var draw := chance.contenders(gen, slot, parent, n);
      |draw| == Min(k, n) && (forall i :: 0 <= i < |draw| ==> draw[i] < n) && forall i, j :: 0 <= i < j < |draw| ==> draw[i] != draw[j]
  }

  function Trunc(x: real): int { if x >= 0.0 then x.Floor else -((-x).Floor) }

  /** Length of the slice `[:n]` of a list of `len` elements. */
  function SliceLength(len: nat, n: int): nat { if n >= 0 then Min(n, len) else Max(0, len + n) }

  function SeedsUsed<G>(cfg: GAConfig, seeds: seq<G>): seq<G> {
    seeds[..SliceLength(|seeds|, Trunc(cfg.population as real * cfg.seedRatio))]
  }

  /** The genes of the first population: mutated seeds, then random rulebooks until the population is full. */
  function InitialGenes<G>(cfg: GAConfig, seeds: seq<G>, chance: Chance<G>): seq<G> {
    var used := SeedsUsed(cfg, seeds);
    seq(|used|, i requires 0 <= i < |used| => chance.mutatedSeed(i, used[i])) +
    seq(Max(0, cfg.population - |used|), i requires i >= 0 => chance.random(i))
  }

  function Evaluated<G>(genes: seq<G>, fit: G -> real): (evaluated: seq<Individual<G>>)
    ensures |evaluated| == |genes|
  {
    seq(|genes|, i requires 0 <= i < |genes| => Individual(genes[i], fit(genes[i])))
  }

  function FitterFirst<G>(): (Individual<G>, Individual<G>) -> bool { (a: Individual<G>, b: Individual<G>) => a.fitness >= b.fitness }

  /** The population by falling fitness, ties in the order they were bred. */
  function Ranked<G>(pop: seq<Individual<G>>): (ranked: seq<Individual<G>>)
    ensures |ranked| == |pop|
  {
    SortPermutes(pop, FitterFirst<G>());
    StableSort(pop, FitterFirst<G>())
  }

  /** The first of the fittest, as Python's `max` picks it. */
  function Fittest<G>(inds: seq<Individual<G>>): (best: Individual<G>)
    requires inds != []
    ensures best in inds && forall x :: x in inds ==> x.fitness <= best.fitness
  {
    if |inds| == 1 then inds[0]
    else
      var rest := Fittest(inds[..|inds| - 1]);
      var last := inds[|inds| - 1];
      assert inds == inds[..|inds| - 1] + [last];
      if last.fitness > rest.fitness then last else rest
  }

  function Total<G>(inds: seq<Individual<G>>): real {
    if inds == [] then 0.0 else Total(inds[..|inds| - 1]) + inds[|inds| - 1].fitness
  }

  function Mean<G>(inds: seq<Individual<G>>): real
    requires inds != []
  {
    Total(inds) / |inds| as real
  }

  function EliteCount(cfg: GAConfig): (count: nat)
    ensures count >= 1
  {
    Max(1, Trunc(cfg.population as real * cfg.eliteRatio))
  }

  function TournamentSelect<G>(pop: seq<Individual<G>>, draw: seq<nat>): Individual<G>
    requires draw != [] && forall i :: 0 <= i < |draw| ==> draw[i] < |pop|
  {
    Fittest(seq(|draw|, i requires 0 <= i < |draw| => pop[draw[i]]))
  }

  /** The genes of the child for one slot of the next population. */
  function ChildGenes<G>(pop: seq<Individual<G>>, gen: nat, slot: nat, k: nat, chance: Chance<G>): G
    requires pop != [] && k > 0 && FairDraws(chance, k)
  {
    chance.child(gen, slot,
                 TournamentSelect(pop, chance.contenders(gen, slot, 0, |pop|)).genes,
                 TournamentSelect(pop, chance.contenders(gen, slot, 1, |pop|)).genes)
  }

  /** The genes of the children for the slots from `slot` on. */
  function Offspring<G>(pop: seq<Individual<G>>, gen: nat, slot: nat, cfg: GAConfig, chance: Chance<G>): seq<G>
    requires pop != [] && cfg.tournamentSize > 0 && FairDraws(chance, cfg.tournamentSize)
    decreases cfg.population - slot
  {
    if slot >= cfg.population then []
    else [ChildGenes(pop, gen, slot, cfg.tournamentSize, chance)] + Offspring(pop, gen, slot + 1, cfg, chance)
  }

  /** The search between two generations. `calls` lists the genes handed to the evaluation so far. */
  datatype Search<+G> = Search(
    population: seq<Individual<G>>, best: Individual<G>, noImprove: nat, history: seq<(nat, real, real)>, calls: seq<G>, stopped: bool)

  function StartSearch<G>(cfg: GAConfig, seeds: seq<G>, chance: Chance<G>, fit: G -> real): Search<G>
    requires cfg.population > 0
  {
    var genes := InitialGenes(cfg, seeds, chance);
    assert genes != [];
    var pop := Evaluated(genes, fit);
    Search(pop, Fittest(pop), 0, [], genes, false)
  }

  /** One generation: rank, remember the best, stop after too many without improvement, else breed around the elite. */
  function Generation<G>(st: Search<G>, gen: nat, cfg: GAConfig, chance: Chance<G>, fit: G -> real): Search<G>
    requires st.population != [] && cfg.tournamentSize > 0 && FairDraws(chance, cfg.tournamentSize)
  {
    var ranked := Ranked(st.population);
    var history := st.history + [(gen, ranked[0].fitness, Mean(ranked))];
    var improved := ranked[0].fitness > st.best.fitness;
    var best := if improved then ranked[0] else st.best;
    var noImprove := if improved then 0 else st.noImprove + 1;
    if !improved && noImprove >= cfg.earlyStop then Search(ranked, best, noImprove, history, st.calls, true)
    else
      var elites := ranked[..Min(EliteCount(cfg), |ranked|)];
      var genes := Offspring(ranked, gen, |elites|, cfg, chance);
      Search(elites + Evaluated(genes, fit), best, noImprove, history, st.calls + genes, false)
  }

  /** All generations from `gen` on. */
  function Generations<G>(st: Search<G>, gen: nat, cfg: GAConfig, chance: Chance<G>, fit: G -> real): Search<G>
    requires st.population != [] && cfg.tournamentSize > 0 && FairDraws(chance, cfg.tournamentSize)
    decreases cfg.generations + 1 - gen
  {
    if st.stopped || gen > cfg.generations then st
    else
      Generations(Generation(st, gen, cfg, chance, fit), gen + 1, cfg, chance, fit)
  }

  /** The whole search. */
  function SearchRun<G>(cfg: GAConfig, seeds: seq<G>, chance: Chance<G>, fit: G -> real): Search<G>
    requires cfg.population > 0 && cfg.tournamentSize > 0 && FairDraws(chance, cfg.tournamentSize)
  {
    Generations(StartSearch(cfg, seeds, chance, fit), 1, cfg, chance, fit)
  }

  function ResultOf<G>(st: Search<G>): GAResult<G> { GAResult(st.best, st.history, st.population) }
}

/** Nothing good is lost: properties of the search for every sequence of random choices. */
module GeneticFacts {
  import opened Common
  import opened Sorting
  import opened GeneticSpec

  // ---- sizes, means and parents --------------------------------------------------

  /** The elite is the truncated share of the population, and at least one. */
  lemma EliteCountExactly(cfg: GAConfig)
    ensures var share, n := cfg.population as real * cfg.eliteRatio, EliteCount(cfg);
      if share < 2.0 then n == 1 else n as real <= share < n as real + 1.0
  {
  }

  /** The seeds used are the first of them, as many as the truncated share of the population; a negative share leaves that many off
      the end. */
  lemma SeedsUsedExactly<G>(cfg: GAConfig, seeds: seq<G>, n: int)
    requires var share := cfg.population as real * cfg.seedRatio;
      if share >= 0.0 then n as real <= share < n as real + 1.0 else n as real - 1.0 < share <= n as real
    ensures SeedsUsed(cfg, seeds) <= seeds
    ensures |SeedsUsed(cfg, seeds)| == if n < 0 then Max(0, |seeds| + n) else Min(n, |seeds|)
  {
  }

  /** Of equally fit contenders the first wins. */
  lemma {:induction false} FittestIsFirst<G>(inds: seq<Individual<G>>) returns (k: nat)
    requires inds != []
    ensures k < |inds| && Fittest(inds) == inds[k]
    ensures forall j :: 0 <= j < k ==> inds[j].fitness < inds[k].fitness
    ensures forall j :: 0 <= j < |inds| ==> inds[j].fitness <= inds[k].fitness
  {
    if |inds| == 1 {
      k := 0;
    } else {
      k := FittestIsFirst(inds[..|inds| - 1]);
      if inds[|inds| - 1].fitness > inds[k].fitness { k := |inds| - 1; }
    }
  }

  /** The parents of a child win a tournament each: the first of the fittest among the contenders drawn for them. */
  lemma ParentsWin<G>(pop: seq<Individual<G>>, gen: nat, slot: nat, k: nat, chance: Chance<G>) returns (a: nat, b: nat)
    requires pop != [] && k > 0 && FairDraws(chance, k)
    ensures Wins(pop, chance.contenders(gen, slot, 0, |pop|), a) && Wins(pop, chance.contenders(gen, slot, 1, |pop|), b)
    ensures ChildGenes(pop, gen, slot, k, chance) == chance.child(gen, slot, pop[a].genes, pop[b].genes)
  {
    a := WinnerOf(pop, chance.contenders(gen, slot, 0, |pop|));
    b := WinnerOf(pop, chance.contenders(gen, slot, 1, |pop|));
  }

  ghost predicate Wins<G>(pop: seq<Individual<G>>, draw: seq<nat>, a: nat) {
    && (forall i :: 0 <= i < |draw| ==> draw[i] < |pop|)
    && exists i :: 0 <= i < |draw| && draw[i] == a
         && (forall j :: 0 <= j < i ==> pop[draw[j]].fitness < pop[a].fitness) && (forall j :: 0 <= j < |draw| ==> pop[draw[j]].fitness <= pop[a].fitness)
  }

  lemma WinnerOf<G>(pop: seq<Individual<G>>, draw: seq<nat>) returns (a: nat)
    requires draw != [] && forall i :: 0 <= i < |draw| ==> draw[i] < |pop|
    ensures Wins(pop, draw, a) && TournamentSelect(pop, draw) == pop[a]
  {
    var drawn := seq(|draw|, i requires 0 <= i < |draw| => pop[draw[i]]);
    var i := FittestIsFirst(drawn);
    a := draw[i];
    assert forall j :: 0 <= j < |draw| ==> drawn[j] == pop[draw[j]];
  }

  /** The mean fitness times the size is the sum of all: that of one is its own, and that of two groups is theirs together. */
  lemma {:induction false} MeanIsSumOverSize<G>(a: seq<Individual<G>>, b: seq<Individual<G>>)
    ensures Total(a + b) == Total(a) + Total(b)
    ensures |a| == 1 ==> Total(a) == a[0].fitness
    ensures a != [] ==> Mean(a) * |a| as real == Total(a)
  {
    if b == [] {
      assert a + b == a;
    } else {
      assert (a + b)[..|a + b| - 1] == a + b[..|b| - 1];
      MeanIsSumOverSize(a, b[..|b| - 1]);
    }
  }

  lemma FitnessOrder<G(!new)>()
    ensures TotalPreorder(FitterFirst<G>())
  {
  }

  /** The ranked population: same members, the fittest first. */
  lemma Ranking<G(!new)>(pop: seq<Individual<G>>)
    requires pop != []
    ensures var ranked := Ranked(pop);
            && (forall x :: x in ranked <==> x in pop)
            && forall x :: x in pop ==> x.fitness <= ranked[0].fitness
  {
    var ranked := Ranked(pop);
    FitnessOrder<G>();
    SortPermutes(pop, FitterFirst<G>());
    SortSorts(pop, FitterFirst<G>());
    forall x ensures x in ranked <==> x in pop {
      assert x in multiset(ranked) <==> x in multiset(pop);
    }
    forall x | x in pop ensures x.fitness <= ranked[0].fitness {
      assert x in ranked;
      var i :| 0 <= i < |ranked| && ranked[i] == x;
      if i > 0 {
        assert FitterFirst<G>()(ranked[0], ranked[i]);
      }
    }
  }

  /** Every individual was evaluated, and carries its own fitness. */
  ghost predicate Honest<G(!new)>(st: Search<G>, fit: G -> real) {
    && (forall x :: x in st.population ==> x.genes in st.calls && x.fitness == fit(x.genes))
    && st.best.genes in st.calls && st.best.fitness == fit(st.best.genes)
  }

  /** Whatever was ever evaluated is matched by the best on record or by someone still in the population. */
  ghost predicate NothingLost<G(!new)>(st: Search<G>, fit: G -> real) {
    forall g :: g in st.calls ==> fit(g) <= st.best.fitness || exists x :: x in st.population && fit(g) <= x.fitness
  }

  /** The bests on record never fall, and the population still has someone as good as the last of them. */
  ghost predicate Climbing<G(!new)>(st: Search<G>) {
    && (forall i, j :: 0 <= i < j < |st.history| ==> st.history[i].1 <= st.history[j].1)
    && (st.history != [] ==> exists x :: x in st.population && st.history[|st.history| - 1].1 <= x.fitness)
  }

  ghost predicate Sound<G(!new)>(st: Search<G>, fit: G -> real) {
    st.population != [] && Honest(st, fit) && NothingLost(st, fit) && Climbing(st)
  }

  lemma EvaluatedMembers<G(!new)>(genes: seq<G>, fit: G -> real)
    ensures forall x :: x in Evaluated(genes, fit) ==> x.genes in genes && x.fitness == fit(x.genes)
    ensures forall g :: g in genes ==> Individual(g, fit(g)) in Evaluated(genes, fit)
  {
    forall g | g in genes ensures Individual(g, fit(g)) in Evaluated(genes, fit) {
      var i :| 0 <= i < |genes| && genes[i] == g;
      assert Evaluated(genes, fit)[i] == Individual(g, fit(g));
    }
  }

  lemma StartIsSound<G(!new)>(cfg: GAConfig, seeds: seq<G>, chance: Chance<G>, fit: G -> real)
    requires cfg.population > 0
    ensures Sound(StartSearch(cfg, seeds, chance, fit), fit)
  {
    var genes := InitialGenes(cfg, seeds, chance);
    EvaluatedMembers(genes, fit);
    forall g | g in genes ensures exists x :: x in Evaluated(genes, fit) && fit(g) <= x.fitness {
      assert Individual(g, fit(g)) in Evaluated(genes, fit);
    }
  }

  lemma GenerationIsSound<G(!new)>(st: Search<G>, gen: nat, cfg: GAConfig, chance: Chance<G>, fit: G -> real)
    requires Sound(st, fit) && cfg.tournamentSize > 0 && FairDraws(chance, cfg.tournamentSize)
    ensures Sound(Generation(st, gen, cfg, chance, fit), fit)
  {
    var ranked := Ranked(st.population);
    Ranking(st.population);
    var next := Generation(st, gen, cfg, chance, fit);
    var elites := ranked[..Min(EliteCount(cfg), |ranked|)];
    var genes := Offspring(ranked, gen, |elites|, cfg, chance);
    EvaluatedMembers(genes, fit);
    assert ranked[0] in next.population;
    assert forall x :: x in elites ==> x in ranked;
    forall g | g in next.calls ensures fit(g) <= next.best.fitness || exists x :: x in next.population && fit(g) <= x.fitness {
      if g in st.calls {
        assert fit(g) <= ranked[0].fitness || fit(g) <= st.best.fitness;
      } else {
        assert Individual(g, fit(g)) in next.population;
      }
    }
    HistoryClimbs(st, next, ranked[0].fitness);
  }

  lemma HistoryClimbs<G(!new)>(st: Search<G>, next: Search<G>, best: real)
    requires Climbing(st) && |next.history| == |st.history| + 1 && next.history[..|st.history|] == st.history
    requires next.history[|st.history|].1 == best
    requires forall x :: x in st.population ==> x.fitness <= best
    requires exists x :: x in next.population && best <= x.fitness
    ensures Climbing(next)
  {
    forall i, j | 0 <= i < j < |next.history| ensures next.history[i].1 <= next.history[j].1 {
      assert next.history[i] == st.history[i];
      if j < |st.history| {
        assert next.history[j] == st.history[j];
      } else {
        assert i < |st.history| - 1 ==> st.history[i].1 <= st.history[|st.history| - 1].1;
      }
    }
  }

  lemma {:induction false} GenerationsAreSound<G(!new)>(st: Search<G>, gen: nat, cfg: GAConfig, chance: Chance<G>, fit: G -> real)
    requires Sound(st, fit) && cfg.tournamentSize > 0 && FairDraws(chance, cfg.tournamentSize)
    ensures Sound(Generations(st, gen, cfg, chance, fit), fit)
    decreases cfg.generations + 1 - gen
  {
    hide Honest, NothingLost, Climbing, Generation, FairDraws;
    if !st.stopped && gen <= cfg.generations {
      GenerationIsSound(st, gen, cfg, chance, fit);
      GenerationsAreSound(Generation(st, gen, cfg, chance, fit), gen + 1, cfg, chance, fit);
    }
  }

  // ---- population size -----------------------------------------------------------

  lemma {:induction false} OffspringFill<G>(pop: seq<Individual<G>>, gen: nat, slot: nat, cfg: GAConfig, chance: Chance<G>)
    requires pop != [] && cfg.tournamentSize > 0 && FairDraws(chance, cfg.tournamentSize)
    ensures |Offspring(pop, gen, slot, cfg, chance)| == Max(0, cfg.population - slot)
    decreases cfg.population - slot
  {
    if slot < cfg.population { OffspringFill(pop, gen, slot + 1, cfg, chance); }
  }

  lemma {:induction false} SizeIsKept<G(!new)>(st: Search<G>, gen: nat, cfg: GAConfig, chance: Chance<G>, fit: G -> real)
    requires |st.population| == cfg.population > 0 && cfg.tournamentSize > 0 && FairDraws(chance, cfg.tournamentSize)
    ensures |Generations(st, gen, cfg, chance, fit).population| == cfg.population
    decreases cfg.generations + 1 - gen
  {
    if !st.stopped && gen <= cfg.generations {
      var ranked := Ranked(st.population);
      OffspringFill(ranked, gen, Min(EliteCount(cfg), |ranked|), cfg, chance);
      SizeIsKept(Generation(st, gen, cfg, chance, fit), gen + 1, cfg, chance, fit);
    }
  }

  /** The first population has the configured size exactly when the seed share is no more than the whole;
      then every later one has it too. */
  lemma PopulationSize<G(!new)>(cfg: GAConfig, seeds: seq<G>, chance: Chance<G>, fit: G -> real)
    requires cfg.population > 0 && cfg.tournamentSize > 0 && FairDraws(chance, cfg.tournamentSize)
    ensures |StartSearch(cfg, seeds, chance, fit).population| == cfg.population <==> |SeedsUsed(cfg, seeds)| <= cfg.population
    ensures |SeedsUsed(cfg, seeds)| <= cfg.population ==> |SearchRun(cfg, seeds, chance, fit).population| == cfg.population
  {
    if |SeedsUsed(cfg, seeds)| <= cfg.population {
      SizeIsKept(StartSearch(cfg, seeds, chance, fit), 1, cfg, chance, fit);
    }
  }

  // ---- collecting the top --------------------------------------------------------

  function Candidates<G>(r: GAResult<G>): seq<Individual<G>> { [r.best] + r.finalPopulation }

  /** The order of the collected rulebooks: fitter first, equal fitness by hash. */
  predicate GoesFirst<G>(a: Individual<G>, b: Individual<G>, hash: G -> string) {
    a.fitness > b.fitness || (a.fitness == b.fitness && !StrLess(hash(b.genes), hash(a.genes)))
  }

  /** One of `chosen` has the hash of c and is at least as fit. */
  ghost predicate StandsIn<G(!new)>(chosen: seq<Individual<G>>, c: Individual<G>, hash: G -> string) {
    exists i :: 0 <= i < |chosen| && hash(chosen[i].genes) == hash(c.genes) && chosen[i].fitness >= c.fitness
  }

  /** `top` are the n fittest candidates of different hashes. */
  ghost predicate IsTop<G(!new)>(top: seq<Individual<G>>, r: GAResult<G>, n: int, hash: G -> string) {
    && |top| <= Max(n, 0)
    && (forall t :: t in top ==> t in Candidates(r))
    && (forall i, j :: 0 <= i < j < |top| ==> hash(top[i].genes) != hash(top[j].genes) && GoesFirst(top[i], top[j], hash))
    && (forall c :: c in Candidates(r) ==>
          StandsIn(top, c, hash) || (|top| == Max(n, 0) && forall t :: t in top ==> GoesFirst(t, c, hash)))
  }

  lemma TheOneOnTop<G(!new)>(top: seq<Individual<G>>, r: GAResult<G>, hash: G -> string)
    requires IsTop(top, r, 1, hash)
    ensures |top| == 1 && top[0] in Candidates(r) && forall c :: c in Candidates(r) ==> c.fitness <= top[0].fitness
  {
    assert r.best == Candidates(r)[0];
    assert r.best in Candidates(r);
    assert |top| == 1;
    forall c | c in Candidates(r) ensures c.fitness <= top[0].fitness {
      assert top[0] in top;
    }
  }

  lemma RunIsSound<G(!new)>(cfg: GAConfig, seeds: seq<G>, chance: Chance<G>, fit: G -> real)
    requires cfg.population > 0 && cfg.tournamentSize > 0 && FairDraws(chance, cfg.tournamentSize)
    ensures Sound(SearchRun(cfg, seeds, chance, fit), fit)
  {
    StartIsSound(cfg, seeds, chance, fit);
    GenerationsAreSound(StartSearch(cfg, seeds, chance, fit), 1, cfg, chance, fit);
  }

  /** Elitist search loses nothing: the one rulebook collected at the end is as fit as anything ever evaluated,
      even children of the last generation and bests long bred away; and the bests of the generations never fell. */
  lemma ElitistSearchLosesNothing<G(!new)>(
    cfg: GAConfig, seeds: seq<G>, chance: Chance<G>, fit: G -> real, top: seq<Individual<G>>, hash: G -> string)
    requires cfg.population > 0 && cfg.tournamentSize > 0 && FairDraws(chance, cfg.tournamentSize)
    requires IsTop(top, ResultOf(SearchRun(cfg, seeds, chance, fit)), 1, hash)
    ensures var run := SearchRun(cfg, seeds, chance, fit);
      && |top| == 1 && top[0].genes in run.calls && top[0].fitness == fit(top[0].genes)
      && (forall g :: g in run.calls ==> fit(g) <= top[0].fitness)
      && (forall i, j :: 0 <= i < j < |run.history| ==> run.history[i].1 <= run.history[j].1)
  {
    hide IsTop, SearchRun, FairDraws;
    var run := SearchRun(cfg, seeds, chance, fit);
    RunIsSound(cfg, seeds, chance, fit);
    TheOneOnTop(top, ResultOf(run), hash);
    var candidates := Candidates(ResultOf(run));
    assert candidates[0] == run.best && candidates[1..] == run.population;
    forall g | g in run.calls ensures fit(g) <= top[0].fitness {
      if fit(g) > run.best.fitness {
        var x :| x in run.population && fit(g) <= x.fitness;
        assert x in candidates[1..];
      }
    }
  }

  /** The result's own `best` alone tops everything evaluated exactly when no member of the last population is fitter. */
  lemma BestAloneSuffices<G(!new)>(cfg: GAConfig, seeds: seq<G>, chance: Chance<G>, fit: G -> real)
    requires cfg.population > 0 && cfg.tournamentSize > 0 && FairDraws(chance, cfg.tournamentSize)
    ensures var run := SearchRun(cfg, seeds, chance, fit);
      (forall g :: g in run.calls ==> fit(g) <= run.best.fitness) <==> (forall x :: x in run.population ==> x.fitness <= run.best.fitness)
  {
    hide SearchRun, FairDraws;
    RunIsSound(cfg, seeds, chance, fit);
  }

  // ---- when the result's own best is enough --------------------------------------

  /** The result's own `best` is as fit as everything ever evaluated. */
  ghost predicate BestTopsAll<G(!new)>(run: Search<G>, fit: G -> real) {
    forall g :: g in run.calls ==> fit(g) <= run.best.fitness
  }

  /** The settings under which no search breeds a child: no generation, a stop after the first, or an elite of everyone. */
  predicate NeverBreeds(cfg: GAConfig) { cfg.generations == 0 || cfg.earlyStop <= 1 || EliteCount(cfg) >= cfg.population }

  lemma StartTops<G(!new)>(cfg: GAConfig, seeds: seq<G>, chance: Chance<G>, fit: G -> real)
    requires cfg.population > 0
    ensures var start := StartSearch(cfg, seeds, chance, fit);
      BestTopsAll(start, fit) && |start.population| >= cfg.population && !start.stopped && start.noImprove == 0
  {
    var genes := InitialGenes(cfg, seeds, chance);
    EvaluatedMembers(genes, fit);
  }

  /** A generation that breeds nobody leaves best and evaluations as they are. */
  lemma GenerationWithoutChild<G(!new)>(st: Search<G>, gen: nat, cfg: GAConfig, chance: Chance<G>, fit: G -> real)
    requires Sound(st, fit) && BestTopsAll(st, fit) && cfg.tournamentSize > 0 && FairDraws(chance, cfg.tournamentSize)
    requires (|st.population| >= cfg.population && EliteCount(cfg) >= cfg.population) || cfg.earlyStop <= 1
    ensures var next := Generation(st, gen, cfg, chance, fit);
      && next.calls == st.calls && next.best == st.best && BestTopsAll(next, fit)
      && (cfg.earlyStop <= 1 ==> next.stopped) && (EliteCount(cfg) >= cfg.population && |st.population| >= cfg.population ==> |next.population| >= cfg.population)
  {
    hide FairDraws, NothingLost, Climbing, Mean;
    Ranking(st.population);
    assert Ranked(st.population)[0] in st.population;
  }

  lemma {:induction false} GenerationsWithoutChild<G(!new)>(st: Search<G>, gen: nat, cfg: GAConfig, chance: Chance<G>, fit: G -> real)
    requires Sound(st, fit) && BestTopsAll(st, fit) && cfg.tournamentSize > 0 && FairDraws(chance, cfg.tournamentSize)
    requires |st.population| >= cfg.population && NeverBreeds(cfg) && gen > 0
    ensures BestTopsAll(Generations(st, gen, cfg, chance, fit), fit)
    decreases cfg.generations + 1 - gen
  {
    hide FairDraws, Honest, NothingLost, Climbing, BestTopsAll, Generation, EliteCount;
    if !st.stopped && gen <= cfg.generations {
      GenerationIsSound(st, gen, cfg, chance, fit);
      GenerationWithoutChild(st, gen, cfg, chance, fit);
      var next := Generation(st, gen, cfg, chance, fit);
      if cfg.earlyStop > 1 { GenerationsWithoutChild(next, gen + 1, cfg, chance, fit); }
    }
  }

  /** A search that breeds nobody misses nobody. */
  lemma NothingBredNothingMissed<G(!new)>(cfg: GAConfig, seeds: seq<G>, chance: Chance<G>, fit: G -> real)
    requires cfg.population > 0 && cfg.tournamentSize > 0 && FairDraws(chance, cfg.tournamentSize) && NeverBreeds(cfg)
    ensures BestTopsAll(SearchRun(cfg, seeds, chance, fit), fit)
  {
    hide FairDraws, Sound, BestTopsAll, StartSearch, EliteCount;
    StartIsSound(cfg, seeds, chance, fit);
    StartTops(cfg, seeds, chance, fit);
    GenerationsWithoutChild(StartSearch(cfg, seeds, chance, fit), 1, cfg, chance, fit);
  }

  /** Choices under which every generation's children are its number, and beat everyone before them. */
  function RisingChance(k: nat): Chance<int> {
    Chance((i: nat, g: int) => 0, (i: nat) => 0, (gen: nat, slot: nat, parent: nat, n: nat) => seq(Min(k, n), (i: nat) => i),
           (gen: nat, slot: nat, a: int, b: int) => gen)
  }

  lemma RisingIsFair(k: nat)
    ensures FairDraws(RisingChance(k), k)
  {
  }

  lemma {:induction false} RisingChildren(pop: seq<Individual<int>>, gen: nat, slot: nat, cfg: GAConfig)
    requires pop != [] && cfg.tournamentSize > 0 && FairDraws(RisingChance(cfg.tournamentSize), cfg.tournamentSize)
    ensures var genes := Offspring(pop, gen, slot, cfg, RisingChance(cfg.tournamentSize));
      |genes| == Max(0, cfg.population - slot) && forall g :: g in genes ==> g == gen
    decreases cfg.population - slot
  {
    hide FairDraws;
    if slot < cfg.population { RisingChildren(pop, gen, slot + 1, cfg); }
  }

  /** Before generation `gen` the fittest is the child of the generation before, and not yet on record. */
  ghost predicate Ahead(st: Search<int>, gen: nat, cfg: GAConfig) {
    && gen > 0 && !st.stopped && |st.population| >= cfg.population > 0
    && (forall x :: x in st.population ==> x.fitness <= (gen - 1) as real)
    && (exists x :: x in st.population && x.fitness == (gen - 1) as real)
    && st.best.fitness == Max(gen - 2, 0) as real && (gen == 1 ==> st.noImprove == 0)
  }

  lemma StaysAhead(st: Search<int>, gen: nat, cfg: GAConfig)
    requires Ahead(st, gen, cfg) && !NeverBreeds(cfg) && cfg.tournamentSize > 0
    requires FairDraws(RisingChance(cfg.tournamentSize), cfg.tournamentSize)
    ensures Ahead(Generation(st, gen, cfg, RisingChance(cfg.tournamentSize), Face()), gen + 1, cfg)
  {
    hide FairDraws, EliteCount, Mean;
    var ranked := Ranked(st.population);
    Ranking(st.population);
    assert ranked[0] in st.population;
    var elites := ranked[..Min(EliteCount(cfg), |ranked|)];
    var genes := Offspring(ranked, gen, |elites|, cfg, RisingChance(cfg.tournamentSize));
    RisingChildren(ranked, gen, |elites|, cfg);
    EvaluatedMembers(genes, Face());
    var next := Generation(st, gen, cfg, RisingChance(cfg.tournamentSize), Face());
    assert forall x :: x in elites ==> x in ranked;
    assert next.population == elites + Evaluated(genes, Face());
    assert genes[0] in genes;
    assert Individual(gen, gen as real) in next.population;
  }

  lemma {:induction false} RunsAhead(st: Search<int>, gen: nat, cfg: GAConfig)
    requires Ahead(st, gen, cfg) && !NeverBreeds(cfg) && cfg.tournamentSize > 0 && gen <= cfg.generations + 1
    requires FairDraws(RisingChance(cfg.tournamentSize), cfg.tournamentSize)
    ensures Ahead(Generations(st, gen, cfg, RisingChance(cfg.tournamentSize), Face()), cfg.generations + 1, cfg)
    decreases cfg.generations + 1 - gen
  {
    hide FairDraws, NeverBreeds, Generation;
    if gen <= cfg.generations {
      StaysAhead(st, gen, cfg);
      RunsAhead(Generation(st, gen, cfg, RisingChance(cfg.tournamentSize), Face()), gen + 1, cfg);
    }
  }

  lemma StartsAhead(cfg: GAConfig, seeds: seq<int>)
    requires cfg.population > 0
    ensures Ahead(StartSearch(cfg, seeds, RisingChance(cfg.tournamentSize), Face()), 1, cfg)
  {
    var genes := InitialGenes(cfg, seeds, RisingChance(cfg.tournamentSize));
    EvaluatedMembers(genes, Face());
    assert genes[0] in genes;
  }

  /** For every choice of chance and fitness the result's own `best` tops everything evaluated. */
  ghost predicate BestAlwaysTops(cfg: GAConfig, seeds: seq<int>)
    requires cfg.population > 0 && cfg.tournamentSize > 0
  {
    forall chance: Chance<int>, fit: int -> real :: FairDraws(chance, cfg.tournamentSize) ==> BestTopsAll(SearchRun(cfg, seeds, chance, fit), fit)
  }

  /** The result's own `best` is enough, for every choice of chance and fitness, exactly under the settings that breed nobody. */
  lemma BestAloneTopsExactlyWhen(cfg: GAConfig, seeds: seq<int>)
    requires cfg.population > 0 && cfg.tournamentSize > 0
    ensures BestAlwaysTops(cfg, seeds) <==> NeverBreeds(cfg)
  {
    hide FairDraws, NeverBreeds, StartSearch, BestTopsAll;
    if NeverBreeds(cfg) {
      forall chance: Chance<int>, fit: int -> real | FairDraws(chance, cfg.tournamentSize) ensures BestTopsAll(SearchRun(cfg, seeds, chance, fit), fit) {
        NothingBredNothingMissed(cfg, seeds, chance, fit);
      }
    } else {
      RisingMisses(cfg, seeds);
    }
  }

  lemma RisingMisses(cfg: GAConfig, seeds: seq<int>)
    requires cfg.population > 0 && cfg.tournamentSize > 0 && !NeverBreeds(cfg)
    ensures FairDraws(RisingChance(cfg.tournamentSize), cfg.tournamentSize)
    ensures !BestTopsAll(SearchRun(cfg, seeds, RisingChance(cfg.tournamentSize), Face()), Face())
  {
    hide FairDraws, StartSearch, Generations, EliteCount;
    RisingIsFair(cfg.tournamentSize);
    StartsAhead(cfg, seeds);
    RunsAhead(StartSearch(cfg, seeds, RisingChance(cfg.tournamentSize), Face()), 1, cfg);
    BestAloneSuffices(cfg, seeds, RisingChance(cfg.tournamentSize), Face());
  }

  // A search of two rulebooks and one generation whose only child is fitter than everyone before it.
  const MISSING_CONFIG := GAConfig(2, 1, 0.5, 1, 0.0, 8)

  function MissingChance(): Chance<int> {
    Chance((i: nat, g: int) => g, (i: nat) => 0, (gen: nat, slot: nat, parent: nat, n: nat) => [0], (gen: nat, slot: nat, a: int, b: int) => 7)
  }

  function Face(): int -> real { (g: int) => g as real }

  lemma MissingStart()
    ensures var start := StartSearch(MISSING_CONFIG, [], MissingChance(), Face());
      start.population == [Individual(0, 0.0), Individual(0, 0.0)] && start.best == Individual(0, 0.0) && start.noImprove == 0 && !start.stopped
  {
  }

  lemma MissingGeneration(start: Search<int>)
    requires start.population == [Individual(0, 0.0), Individual(0, 0.0)] && start.best == Individual(0, 0.0) && start.noImprove == 0
    ensures FairDraws(MissingChance(), 1)
    ensures var next := Generation(start, 1, MISSING_CONFIG, MissingChance(), Face());
      next.best.fitness == 0.0 && Individual(7, 7.0) in next.population
  {
    assert FairDraws(MissingChance(), 1);
    var ranked := Ranked(start.population);
    Ranking(start.population);
    assert ranked[0] in start.population;
    assert EliteCount(MISSING_CONFIG) == 1;
    var genes := Offspring(ranked, 1, 1, MISSING_CONFIG, MissingChance());
    OffspringFill(ranked, 1, 1, MISSING_CONFIG, MissingChance());
    assert genes[0] == 7;
    assert Evaluated(genes, Face())[0] == Individual(7, 7.0);
    var next := Generation(start, 1, MISSING_CONFIG, MissingChance(), Face());
    assert next.population[1] == Individual(7, 7.0);
  }

  /** The result's own `best` is not enough: it can miss children of the last generation. */
  lemma BestAloneCanMiss()
    ensures FairDraws(MissingChance(), MISSING_CONFIG.tournamentSize)
    ensures var run := SearchRun(MISSING_CONFIG, [], MissingChance(), Face());
      exists x :: x in run.population && x.fitness > ResultOf(run).best.fitness
  {
    hide StartSearch, Generation;
    var start := StartSearch(MISSING_CONFIG, [], MissingChance(), Face());
    MissingStart();
    MissingGeneration(start);
    var next := Generation(start, 1, MISSING_CONFIG, MissingChance(), Face());
    assert SearchRun(MISSING_CONFIG, [], MissingChance(), Face()) == next;
    assert Individual(7, 7.0) in next.population;
  }
}
