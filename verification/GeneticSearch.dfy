/** The memo around the fitness function. */
module FitnessCaches {

  /** The fields of the key context, in the order of the key, already turned into text. */
  type Context = seq<string>

  datatype CacheKey = CacheKey(context: Context, hash: string)

  /** One question to the cache: a rulebook in a context. */
  datatype Call<+G> = Call(context: Context, genes: G)

  function KeyOf<G>(call: Call<G>, hash: G -> string): CacheKey { CacheKey(call.context, hash(call.genes)) }

  function Answer<G>(call: Call<G>, fitness: Context -> G -> real): real { fitness(call.context)(call.genes) }

  /** Equal hashes mean equal fitness in the same context: what the cache key relies on. */
  ghost predicate HashDeterminesFitness<G(!new)>(hash: G -> string, fitness: Context -> G -> real) {
    forall a: Call<G>, b: Call<G> :: KeyOf(a, hash) == KeyOf(b, hash) ==> Answer(a, fitness) == Answer(b, fitness)
  }

  /** Every question asked has its own answer in the store, and the store holds nothing else. */
  ghost predicate Remembers<G(!new)>(store: map<CacheKey, real>, calls: seq<Call<G>>, hash: G -> string, fitness: Context -> G -> real) {
    && (forall call :: call in calls ==> KeyOf(call, hash) in store && store[KeyOf(call, hash)] == Answer(call, fitness))
    && (forall key :: key in store ==> exists call :: call in calls && key == KeyOf(call, hash))
  }

  /** The stored keys, each once. */
  ghost predicate OnceEach(computed: seq<CacheKey>, keys: set<CacheKey>) {
    && (forall key :: key in computed <==> key in keys)
    && (forall i, j :: 0 <= i < j < |computed| ==> computed[i] != computed[j])
  }

  lemma HitRemembers<G(!new)>(store: map<CacheKey, real>, calls: seq<Call<G>>, call: Call<G>, hash: G -> string, fitness: Context -> G -> real)
    requires Remembers(store, calls, hash, fitness) && HashDeterminesFitness(hash, fitness) && KeyOf(call, hash) in store
    ensures store[KeyOf(call, hash)] == Answer(call, fitness)
    ensures Remembers(store, calls + [call], hash, fitness)
  {
    var earlier :| earlier in calls && KeyOf(call, hash) == KeyOf(earlier, hash);
    assert forall c :: c in calls ==> c in calls + [call];
  }

  lemma MissRemembers<G(!new)>(store: map<CacheKey, real>, calls: seq<Call<G>>, call: Call<G>, hash: G -> string, fitness: Context -> G -> real)
    requires Remembers(store, calls, hash, fitness) && KeyOf(call, hash) !in store
    ensures Remembers(store[KeyOf(call, hash) := Answer(call, fitness)], calls + [call], hash, fitness)
  {
    var after := store[KeyOf(call, hash) := Answer(call, fitness)];
    assert call in calls + [call];
    forall key | key in after ensures exists c :: c in calls + [call] && key == KeyOf(c, hash) {
      if key in store {
        var c :| c in calls && key == KeyOf(c, hash);
        assert c in calls + [call];
      }
    }
  }

  /** The store has one entry for each different key asked for. */
  lemma KeysAsked<G(!new)>(store: map<CacheKey, real>, calls: seq<Call<G>>, hash: G -> string, fitness: Context -> G -> real)
    requires Remembers(store, calls, hash, fitness)
    ensures store.Keys == set call | call in calls :: KeyOf(call, hash)
    ensures |store| == |set call | call in calls :: KeyOf(call, hash)|
  {
    assert |store| == |store.Keys|;
  }

  /** A process-local cache. `calls` are all the questions asked so far, `computed` the keys whose value was computed. */
  class FitnessCache<G(!new)> {
    var store: map<CacheKey, real>
    var hits: nat
    var misses: nat
    ghost var calls: seq<Call<G>>
    ghost var computed: seq<CacheKey>

    /** Each key asked for was computed once and is stored with its fitness; the counters add up. */
    ghost predicate Valid(hash: G -> string, fitness: Context -> G -> real)
      reads this
    {
      && Remembers(store, calls, hash, fitness)
      && OnceEach(computed, store.Keys)
      && misses == |computed| == |store|
      && hits + misses == |calls|
    }

    constructor ()
      ensures store == map[] && hits == misses == 0 && calls == [] && computed == []
      ensures forall hash, fitness :: Valid(hash, fitness)
    {
      store, hits, misses := map[], 0, 0;
      calls, computed := [], [];
    }

    /** `cached(rulebook)`: the same value as the wrapped function, computed only for a key not seen before. */
    method Evaluate(context: Context, genes: G, hash: G -> string, fitness: Context -> G -> real) returns (value: real)
      requires Valid(hash, fitness) && HashDeterminesFitness(hash, fitness)
      modifies this
      ensures Valid(hash, fitness) && value == fitness(context)(genes)
      ensures calls == old(calls) + [Call(context, genes)]
      ensures var key := CacheKey(context, hash(genes));
        if key in old(store)
        then store == old(store) && computed == old(computed) && hits == old(hits) + 1
        else store == old(store)[key := value] && computed == old(computed) + [key] && misses == old(misses) + 1
    {
      hide Remembers, HashDeterminesFitness;
      var key := CacheKey(context, hash(genes));
      ghost var call := Call(context, genes);
      if key in store {
        HitRemembers(store, calls, call, hash, fitness);
        hits := hits + 1;
        value := store[key];
      } else {
        MissRemembers(store, calls, call, hash, fitness);
        misses := misses + 1;
        value := fitness(context)(genes);
        store := store[key := value];
        computed := computed + [key];
      }
      calls := calls + [call];
    }
  }
}

/** `run_ga` and `collect_top_rulebooks` as loops over a population. */
module GeneticSearch {
  import opened Common
  import opened Sorting
  import opened GeneticSpec
  import opened GeneticFacts
  import opened FitnessCaches

  ghost function Asked<G>(context: Context, genes: seq<G>): (asked: seq<Call<G>>)
    ensures |asked| == |genes|
  {
    seq(|genes|, i requires 0 <= i < |genes| => Call(context, genes[i]))
  }

  lemma AskedSplits<G>(context: Context, a: seq<G>, b: seq<G>)
    ensures Asked(context, a + b) == Asked(context, a) + Asked(context, b)
  {
  }

  /** One more child: evaluated last, asked for last. */
  lemma OneMore<G>(context: Context, bred: seq<G>, child: G, rest: seq<G>, fit: G -> real)
    ensures Evaluated(bred + [child], fit) == Evaluated(bred, fit) + [Individual(child, fit(child))]
    ensures Asked(context, bred + [child]) == Asked(context, bred) + [Call(context, child)]
    ensures (bred + [child]) + rest == bred + ([child] + rest)
  {
  }

  lemma UnfoldOffspring<G>(pop: seq<Individual<G>>, gen: nat, slot: nat, cfg: GAConfig, chance: Chance<G>)
    requires pop != [] && cfg.tournamentSize > 0 && FairDraws(chance, cfg.tournamentSize)
    ensures Offspring(pop, gen, slot, cfg, chance) ==
      if slot >= cfg.population then []
      else [ChildGenes(pop, gen, slot, cfg.tournamentSize, chance)] + Offspring(pop, gen, slot + 1, cfg, chance)
  {
  }

  /** One call of the evaluation function, wrapped by the cache or not. */
  method Evaluate<G(!new)>(context: Context, genes: G, hash: G -> string, fitness: Context -> G -> real, cache: FitnessCache?<G>)
    returns (value: real)
    requires cache != null ==> cache.Valid(hash, fitness) && HashDeterminesFitness(hash, fitness)
    modifies cache
    ensures value == fitness(context)(genes)
    ensures cache != null ==> cache.Valid(hash, fitness) && cache.calls == old(cache.calls) + [Call(context, genes)]
  {
    hide FitnessCache.Valid, HashDeterminesFitness;
    if cache != null {
      value := cache.Evaluate(context, genes, hash, fitness);
    } else {
      value := fitness(context)(genes);
    }
  }

  method FirstGenes<G(!new)>(cfg: GAConfig, seeds: seq<G>, chance: Chance<G>) returns (genes: seq<G>)
    ensures genes == InitialGenes(cfg, seeds, chance)
  {
    var used := SeedsUsed(cfg, seeds);
    genes := [];
    for i := 0 to |used|
      invariant |genes| == i && forall j :: 0 <= j < i ==> genes[j] == chance.mutatedSeed(j, used[j])
    {
      genes := genes + [chance.mutatedSeed(i, used[i])];
    }
    while |genes| < cfg.population
      invariant |used| <= |genes| <= Max(|used|, cfg.population)
      invariant forall j :: 0 <= j < |used| ==> genes[j] == chance.mutatedSeed(j, used[j])
      invariant forall j :: |used| <= j < |genes| ==> genes[j] == chance.random(j - |used|)
    {
      genes := genes + [chance.random(|genes| - |used|)];
    }
  }

  method EvaluateAll<G(!new)>(
    context: Context, genes: seq<G>, hash: G -> string, fitness: Context -> G -> real, cache: FitnessCache?<G>)
    returns (population: seq<Individual<G>>)
    requires cache != null ==> cache.Valid(hash, fitness) && HashDeterminesFitness(hash, fitness)
    modifies cache
    ensures population == Evaluated(genes, fitness(context))
    ensures cache != null ==> cache.Valid(hash, fitness) && cache.calls == old(cache.calls) + Asked(context, genes)
  {
    hide FitnessCache.Valid, HashDeterminesFitness;
    population := [];
    for i := 0 to |genes|
      invariant population == Evaluated(genes[..i], fitness(context))
      invariant cache != null ==> cache.Valid(hash, fitness) && cache.calls == old(cache.calls) + Asked(context, genes[..i])
    {
      var value := Evaluate(context, genes[i], hash, fitness, cache);
      population := population + [Individual(genes[i], value)];
      assert Asked(context, genes[..i + 1]) == Asked(context, genes[..i]) + [Call(context, genes[i])];
    }
    assert genes[..|genes|] == genes;
  }

  /** Fill the next population with the evaluated children of tournament winners. */
  method Breed<G(!new)>(
    ranked: seq<Individual<G>>, elites: seq<Individual<G>>, gen: nat, cfg: GAConfig, chance: Chance<G>,
    context: Context, hash: G -> string, fitness: Context -> G -> real, cache: FitnessCache?<G>)
    returns (next: seq<Individual<G>>)
    requires ranked != [] && cfg.tournamentSize > 0 && FairDraws(chance, cfg.tournamentSize)
    requires cache != null ==> cache.Valid(hash, fitness) && HashDeterminesFitness(hash, fitness)
    modifies cache
    ensures var genes := Offspring(ranked, gen, |elites|, cfg, chance);
      && next == elites + Evaluated(genes, fitness(context))
      && (cache != null ==> cache.Valid(hash, fitness) && cache.calls == old(cache.calls) + Asked(context, genes))
  {
    hide FairDraws, Offspring, Evaluated, Asked, ChildGenes, TournamentSelect, Fittest, FitnessCache.Valid, HashDeterminesFitness;
    next := elites;
    ghost var genes := Offspring(ranked, gen, |elites|, cfg, chance);
    ghost var bred: seq<G> := [];
    assert Evaluated(bred, fitness(context)) == [] && Asked(context, bred) == [];
    while |next| < cfg.population
      invariant |next| == |elites| + |bred|
      invariant bred + Offspring(ranked, gen, |next|, cfg, chance) == genes
      invariant next == elites + Evaluated(bred, fitness(context))
      invariant cache != null ==> cache.Valid(hash, fitness) && cache.calls == old(cache.calls) + Asked(context, bred)
    {
      var child := ChildGenes(ranked, gen, |next|, cfg.tournamentSize, chance);
      var value := Evaluate(context, child, hash, fitness, cache);
      UnfoldOffspring(ranked, gen, |next|, cfg, chance);
      OneMore(context, bred, child, Offspring(ranked, gen, |next| + 1, cfg, chance), fitness(context));
      bred := bred + [child];
      next := next + [Individual(child, value)];
    }
    UnfoldOffspring(ranked, gen, |next|, cfg, chance);
    assert bred == genes;
  }

  lemma UnfoldGenerations<G>(st: Search<G>, gen: nat, cfg: GAConfig, chance: Chance<G>, fit: G -> real)
    requires st.population != [] && cfg.tournamentSize > 0 && FairDraws(chance, cfg.tournamentSize)
    ensures Generations(st, gen, cfg, chance, fit) ==
      if st.stopped || gen > cfg.generations then st
      else Generations(Generation(st, gen, cfg, chance, fit), gen + 1, cfg, chance, fit)
  {
  }

  /** `run_ga`: with or without the cache, the search is the same function of the random choices, and the cache is
      asked for exactly the rulebooks the search evaluates. */
  method RunGa<G(!new)>(
    cfg: GAConfig, seeds: seq<G>, chance: Chance<G>, context: Context, hash: G -> string, fitness: Context -> G -> real, cache: FitnessCache?<G>)
    returns (result: GAResult<G>)
    requires cfg.population > 0 && cfg.tournamentSize > 0 && FairDraws(chance, cfg.tournamentSize)
    requires cache != null ==> cache.Valid(hash, fitness) && HashDeterminesFitness(hash, fitness)
    modifies cache
    ensures var run := SearchRun(cfg, seeds, chance, fitness(context));
      && result == ResultOf(run)
      && (cache != null ==> cache.Valid(hash, fitness) && cache.calls == old(cache.calls) + Asked(context, run.calls))
  {
    hide FairDraws, Generations, Ranked, Offspring, Evaluated, Mean, Fittest, Asked, EliteCount, FitnessCache.Valid, HashDeterminesFitness;
    ghost var fit := fitness(context);
    var genes := FirstGenes(cfg, seeds, chance);
    var population := EvaluateAll(context, genes, hash, fitness, cache);
    var best := Fittest(population);
    var noImprove := 0;
    var history: seq<(nat, real, real)> := [];
    ghost var st := StartSearch(cfg, seeds, chance, fit);
    var gen := 1;
    while gen <= cfg.generations
      invariant population != [] && gen >= 1
      invariant st == Search(population, best, noImprove, history, st.calls, false)
      invariant Generations(st, gen, cfg, chance, fit) == SearchRun(cfg, seeds, chance, fit)
      invariant cache != null ==> cache.Valid(hash, fitness) && cache.calls == old(cache.calls) + Asked(context, st.calls)
      decreases cfg.generations + 1 - gen
    {
      UnfoldGenerations(st, gen, cfg, chance, fit);
      ghost var next := Generation(st, gen, cfg, chance, fit);
      population := Ranked(population);
      history := history + [(gen, population[0].fitness, Mean(population))];
      if population[0].fitness > best.fitness {
        best, noImprove := population[0], 0;
      } else {
        noImprove := noImprove + 1;
        if noImprove >= cfg.earlyStop {
          UnfoldGenerations(next, gen + 1, cfg, chance, fit);
          return GAResult(best, history, population);
        }
      }
      var elites := population[..Min(EliteCount(cfg), |population|)];
      population := Breed(population, elites, gen, cfg, chance, context, hash, fitness, cache);
      AskedSplits(context, st.calls, Offspring(Ranked(st.population), gen, |elites|, cfg, chance));
      st := next;
      gen := gen + 1;
    }
    UnfoldGenerations(st, gen, cfg, chance, fit);
    return GAResult(best, history, population);
  }

  // ---- collect_top_rulebooks -----------------------------------------------------

  /** An entry of the table by hash. */
  datatype Item<+G> = Item(hash: string, rulebook: Individual<G>)

  /** The order of the collected items: fitter first, equal fitness by hash. */
  function ItemFirst<G>(): (Item<G>, Item<G>) -> bool {
    (a: Item<G>, b: Item<G>) =>
      a.rulebook.fitness > b.rulebook.fitness || (a.rulebook.fitness == b.rulebook.fitness && !StrLess(b.hash, a.hash))
  }

  function ItemHash<G>(): Item<G> -> string { (item: Item<G>) => item.hash }

  lemma ItemFirstIsAnOrder<G(!new)>()
    ensures TotalPreorder(ItemFirst<G>())
  {
    forall a: Item<G>, b: Item<G> ensures ItemFirst<G>()(a, b) || ItemFirst<G>()(b, a) {
      StrLessTotal(a.hash, b.hash);
    }
    forall a: Item<G>, b: Item<G>, c: Item<G> | ItemFirst<G>()(a, b) && ItemFirst<G>()(b, c)
      ensures ItemFirst<G>()(a, c)
    {
      if a.rulebook.fitness == b.rulebook.fitness == c.rulebook.fitness {
        StrLessTransitive(c.hash, b.hash, a.hash);
      }
    }
  }

  /** The table holds, for the hashes of `seen` in the order they first appeared, a fittest rulebook of each. */
  ghost predicate BestByHash<G(!new)>(byHash: map<string, Individual<G>>, order: seq<string>, seen: seq<Individual<G>>, hash: G -> string) {
    && (forall h :: h in order <==> h in byHash)
    && (forall i, j :: 0 <= i < j < |order| ==> order[i] != order[j])
    && (forall h :: h in byHash ==> byHash[h] in seen && hash(byHash[h].genes) == h)
    && (forall c :: c in seen ==> hash(c.genes) in byHash && byHash[hash(c.genes)].fitness >= c.fitness)
  }

  /** Of the equally fit ones of a hash it is the first. */
  ghost predicate KeepsFirst<G(!new)>(byHash: map<string, Individual<G>>, seen: seq<Individual<G>>, hash: G -> string) {
    forall h :: h in byHash ==> exists k :: FirstFittest(seen, k, byHash[h], hash)
  }

  /** No rulebook of the same hash before place k is as fit. */
  ghost predicate FirstFittest<G(!new)>(seen: seq<Individual<G>>, k: nat, best: Individual<G>, hash: G -> string) {
    k < |seen| && seen[k] == best && forall j :: 0 <= j < k && hash(seen[j].genes) == hash(best.genes) ==> seen[j].fitness < best.fitness
  }

  lemma BestByHashStep<G(!new)>(byHash: map<string, Individual<G>>, order: seq<string>, seen: seq<Individual<G>>, c: Individual<G>, hash: G -> string)
    requires BestByHash(byHash, order, seen, hash)
    ensures var h := hash(c.genes);
      if h !in byHash then BestByHash(byHash[h := c], order + [h], seen + [c], hash)
      else if c.fitness > byHash[h].fitness then BestByHash(byHash[h := c], order, seen + [c], hash)
      else BestByHash(byHash, order, seen + [c], hash)
  {
    assert c in seen + [c];
    assert forall x :: x in seen ==> x in seen + [c];
  }

  lemma KeepsFirstStep<G(!new)>(byHash: map<string, Individual<G>>, order: seq<string>, seen: seq<Individual<G>>, c: Individual<G>, hash: G -> string)
    requires BestByHash(byHash, order, seen, hash) && KeepsFirst(byHash, seen, hash)
    ensures var h := hash(c.genes);
      KeepsFirst(if h !in byHash || c.fitness > byHash[h].fitness then byHash[h := c] else byHash, seen + [c], hash)
  {
    forall h | h in byHash ensures exists k :: FirstFittest(seen + [c], k, byHash[h], hash) {
      var k :| FirstFittest(seen, k, byHash[h], hash);
      assert FirstFittest(seen + [c], k, byHash[h], hash);
    }
    if hash(c.genes) !in byHash || c.fitness > byHash[hash(c.genes)].fitness { assert FirstFittest(seen + [c], |seen|, c, hash); }
  }

  /** The loop over the candidates that keeps the fittest of each hash. */
  method GroupByHash<G(!new)>(candidates: seq<Individual<G>>, hash: G -> string)
    returns (byHash: map<string, Individual<G>>, order: seq<string>)
    ensures BestByHash(byHash, order, candidates, hash) && KeepsFirst(byHash, candidates, hash)
  {
    byHash, order := map[], [];
    for i := 0 to |candidates|
      invariant BestByHash(byHash, order, candidates[..i], hash) && KeepsFirst(byHash, candidates[..i], hash)
    {
      hide BestByHash, KeepsFirst;
      BestByHashStep(byHash, order, candidates[..i], candidates[i], hash);
      KeepsFirstStep(byHash, order, candidates[..i], candidates[i], hash);
      assert candidates[..i + 1] == candidates[..i] + [candidates[i]];
      var h := hash(candidates[i].genes);
      if h !in byHash {
        byHash, order := byHash[h := candidates[i]], order + [h];
      } else if candidates[i].fitness > byHash[h].fitness {
        byHash := byHash[h := candidates[i]];
      }
    }
    assert candidates[..|candidates|] == candidates;
  }

  function Items<G>(byHash: map<string, Individual<G>>, order: seq<string>): seq<Item<G>>
    requires forall i :: 0 <= i < |order| ==> order[i] in byHash
  {
    seq(|order|, i requires 0 <= i < |order| => Item(order[i], byHash[order[i]]))
  }

  /** Rulebooks by strictly rising place: different hashes, none behind one that goes after it. */
  ghost predicate InOrder<G(!new)>(ranked: seq<Individual<G>>, hash: G -> string) {
    forall i, j :: 0 <= i < j < |ranked| ==> hash(ranked[i].genes) != hash(ranked[j].genes) && GoesFirst(ranked[i], ranked[j], hash)
  }

  lemma RankedInOrder<G(!new)>(ranked: seq<Item<G>>, rulebooks: seq<Individual<G>>, hash: G -> string)
    requires SortedBy(ranked, ItemFirst<G>()) && DistinctBy(ranked, ItemHash<G>())
    requires |rulebooks| == |ranked|
    requires forall i :: 0 <= i < |ranked| ==> ranked[i].rulebook == rulebooks[i] && ranked[i].hash == hash(rulebooks[i].genes)
    ensures InOrder(rulebooks, hash)
  {
    hide StrLess;
    forall i, j | 0 <= i < j < |ranked|
      ensures hash(rulebooks[i].genes) != hash(rulebooks[j].genes) && GoesFirst(rulebooks[i], rulebooks[j], hash)
    {
      assert ItemFirst<G>()(ranked[i], ranked[j]);
      assert ItemHash<G>()(ranked[i]) != ItemHash<G>()(ranked[j]);
    }
  }

  /** A candidate with a stand-in among all the ranked either has it among the first `n`, or the first `n` all go first. */
  lemma FirstGoFirst<G(!new)>(ranked: seq<Individual<G>>, n: nat, c: Individual<G>, hash: G -> string)
    requires InOrder(ranked, hash) && StandsIn(ranked, c, hash)
    ensures var top := ranked[..Min(n, |ranked|)];
      StandsIn(top, c, hash) || (|top| == n && forall t :: t in top ==> GoesFirst(t, c, hash))
  {
    hide StrLess;
    var top := ranked[..Min(n, |ranked|)];
    var j :| 0 <= j < |ranked| && hash(ranked[j].genes) == hash(c.genes) && ranked[j].fitness >= c.fitness;
    if j < |top| {
      assert top[j] == ranked[j];
    } else {
      forall t | t in top ensures GoesFirst(t, c, hash) {
        var i :| 0 <= i < |top| && top[i] == t;
        assert ranked[i] == t && GoesFirst(ranked[i], ranked[j], hash);
      }
    }
  }

  /** The first `n` of the best of each hash, ranked, are the top. */
  lemma FirstAreTop<G(!new)>(ranked: seq<Individual<G>>, r: GAResult<G>, n: nat, hash: G -> string)
    requires InOrder(ranked, hash) && forall t :: t in ranked ==> t in Candidates(r)
    requires forall c :: c in Candidates(r) ==> StandsIn(ranked, c, hash)
    ensures IsTop(ranked[..Min(n, |ranked|)], r, n, hash)
  {
    hide StandsIn, GoesFirst, Candidates;
    var top := ranked[..Min(n, |ranked|)];
    forall c | c in Candidates(r)
      ensures StandsIn(top, c, hash) || (|top| == n && forall t :: t in top ==> GoesFirst(t, c, hash))
    {
      FirstGoFirst(ranked, n, c, hash);
    }
  }

  function Rulebooks<G>(items: seq<Item<G>>): seq<Individual<G>> {
    seq(|items|, i requires 0 <= i < |items| => items[i].rulebook)
  }

  /** Ranking the items keeps them, in order. */
  lemma RankedItems<G(!new)>(items: seq<Item<G>>)
    requires DistinctBy(items, ItemHash<G>())
    ensures var ranked := StableSort(items, ItemFirst<G>());
      && SortedBy(ranked, ItemFirst<G>()) && DistinctBy(ranked, ItemHash<G>())
      && (forall i :: 0 <= i < |ranked| ==> ranked[i] in items)
      && (forall i :: 0 <= i < |items| ==> items[i] in ranked)
  {
    hide StableSort, StrLess, SortedBy, DistinctBy, ItemFirst;
    var ranked := StableSort(items, ItemFirst<G>());
    ItemFirstIsAnOrder<G>();
    SortSorts(items, ItemFirst<G>());
    SortPermutes(items, ItemFirst<G>());
    SortKeepsDistinct(items, ItemFirst<G>(), ItemHash<G>());
    forall i | 0 <= i < |ranked| ensures ranked[i] in items {
      assert ranked[i] in multiset(ranked);
    }
    forall i | 0 <= i < |items| ensures items[i] in ranked {
      assert items[i] in multiset(items);
    }
  }

  lemma ItemOf<G(!new)>(byHash: map<string, Individual<G>>, order: seq<string>, candidates: seq<Individual<G>>, c: Individual<G>,
                        hash: G -> string, rulebooks: seq<Individual<G>>)
    requires BestByHash(byHash, order, candidates, hash) && c in candidates
    requires forall i :: 0 <= i < |order| ==> byHash[order[i]] in rulebooks
    ensures StandsIn(rulebooks, c, hash)
  {
    var i :| 0 <= i < |order| && order[i] == hash(c.genes);
    var j :| 0 <= j < |rulebooks| && rulebooks[j] == byHash[order[i]];
  }

  lemma PlaceIn<T>(x: T, s: seq<T>) returns (i: nat)
    requires x in s
    ensures i < |s| && s[i] == x
  {
    i :| i < |s| && s[i] == x;
  }

  lemma BestByHashRanked<G(!new)>(byHash: map<string, Individual<G>>, order: seq<string>, candidates: seq<Individual<G>>, hash: G -> string)
    requires BestByHash(byHash, order, candidates, hash)
    ensures var rulebooks := Rulebooks(StableSort(Items(byHash, order), ItemFirst<G>()));
      && InOrder(rulebooks, hash)
      && (forall t :: t in rulebooks ==> t in candidates)
      && forall c :: c in candidates ==> StandsIn(rulebooks, c, hash)
  {
    hide StableSort, InOrder, StandsIn, SortedBy, ItemFirst;
    var items := Items(byHash, order);
    var ranked := StableSort(items, ItemFirst<G>());
    var rulebooks := Rulebooks(ranked);
    RankedItems(items);
    forall i | 0 <= i < |ranked| ensures rulebooks[i] in candidates && ranked[i].hash == hash(rulebooks[i].genes) {
      var k := PlaceIn(ranked[i], items);
      assert order[k] in order;
    }
    RankedInOrder(ranked, rulebooks, hash);
    forall i | 0 <= i < |order| ensures byHash[order[i]] in rulebooks {
      var j := PlaceIn(items[i], ranked);
      assert rulebooks[j] == byHash[order[i]];
    }
    forall c | c in candidates ensures StandsIn(rulebooks, c, hash) {
      ItemOf(byHash, order, candidates, c, hash, rulebooks);
    }
  }

  /** `collect_top_rulebooks`. */
  method CollectTopRulebooks<G(!new)>(r: GAResult<G>, n: int, hash: G -> string) returns (top: seq<Individual<G>>)
    ensures IsTop(top, r, n, hash)
  {
    hide StandsIn, GoesFirst, InOrder, Rulebooks;
    if n <= 0 { return []; }
    var byHash, order := GroupByHash(Candidates(r), hash);
    assert forall i :: 0 <= i < |order| ==> order[i] in order;
    var rulebooks := Rulebooks(StableSort(Items(byHash, order), ItemFirst<G>()));
    BestByHashRanked(byHash, order, Candidates(r), hash);
    FirstAreTop(rulebooks, r, n, hash);
    top := rulebooks[..Min(n, |rulebooks|)];
  }
}
