/** Rulebooks as genes: crossover, mutation, and the normal form every bred rulebook is brought to. */
module Genes {
  import opened Common

  datatype Range = Range(low: real, high: real)

  /** The add-buy fields, which the search keeps switched off. */
  datatype AddBuy = AddBuy(enabled: bool, triggerPct: real, maxCount: int, sizeRatio: real, minScore: real)

  const NO_ADD_BUY := AddBuy(false, 2.0, 1, 0.5, 1.5)

  const TRIGGER_RANGE := Range(4.0, 8.0)
  const FLOOR_RANGE := Range(1.0, 3.0)
  const THRESHOLD_RANGE := Range(0.3, 0.7)
  const DAYS_LOW := 5
  const DAYS_HIGH := 30

  /** The learned fields of a rulebook. `numbers` and `options` are the numeric and categorical genes that depend on no other. */
  datatype Rulebook = Rulebook(
    numbers: map<string, real>, options: map<string, string>, holdingDays: int,
    breakeven: bool, trigger: real, floor: real, sellOmen: bool, threshold: real,
    addBuy: AddBuy, maskSchema: int)

  /** The ranges of the numeric genes and the choices of the categorical ones. */
  datatype Space = Space(ranges: map<string, Range>, choices: map<string, seq<string>>)

  function Clamp(v: real, r: Range): real { MaxR(r.low, MinR(r.high, v)) }

  predicate Within(v: real, r: Range) { r.low <= v <= r.high }

  /** `_normalize_dependent_params`, `_mark_mask_schema_if_needed` and `_disable_add_buy_genes`. */
  function Finalize(rb: Rulebook): Rulebook {
    rb.(maskSchema := Max(rb.maskSchema, 1),
        trigger := if rb.breakeven then Clamp(rb.trigger, TRIGGER_RANGE) else 0.0,
        floor := if rb.breakeven then Clamp(rb.floor, FLOOR_RANGE) else 0.0,
        threshold := if rb.sellOmen then Clamp(rb.threshold, THRESHOLD_RANGE) else 1.0,
        addBuy := NO_ADD_BUY)
  }

  /** What the random generator decides for one numeric gene of a mutation. */
  datatype Shift = Keep | Add(step: real)

  /** The decisions of one mutation; the numeric genes not in `numbers` and the switches have their own. */
  datatype Draws = Draws(
    number: string -> Shift, option: string -> Option<string>, days: Shift, trigger: Shift, floor: Shift, threshold: Shift,
    breakeven: Option<bool>, sellOmen: Option<bool>)

  function Shifted(v: real, r: Range, shift: Shift): real {
    match shift
    case Keep => v
    case Add(step) => Clamp(v + step, r)
  }

  function ShiftedDays(days: int, shift: Shift): int {
    match shift
    case Keep => days
    case Add(step) => Max(DAYS_LOW, Min(DAYS_HIGH, RoundHalfEven(days as real + step)))
  }

  /** A mutation moves a gene by its step, as far as the range goes. */
  lemma StepsStayInRange(v: real, r: Range, step: real)
    requires r.low <= r.high
    ensures var moved := Shifted(v, r, Add(step));
      && (r.low <= v + step <= r.high ==> moved == v + step) && (v + step < r.low ==> moved == r.low) && (v + step > r.high ==> moved == r.high)
    ensures Shifted(v, r, Keep) == v
  {
  }

  /** Holding days move to the nearest whole day, ties to the even one, between the least and the most allowed. */
  lemma DaysMoveToNearest(days: int, step: real)
    ensures var moved := ShiftedDays(days, Add(step));
      && 5 <= moved <= 30
      && (5 < moved ==> moved as real <= days as real + step + 0.5) && (moved < 30 ==> days as real + step - 0.5 <= moved as real)
      && (moved as real == days as real + step - 0.5 || moved as real == days as real + step + 0.5 ==> moved in {5, 30} || moved % 2 == 0)
    ensures ShiftedDays(days, Keep) == days
  {
  }

  function ShiftedNumbers(numbers: map<string, real>, d: Draws, space: Space): map<string, real> {
    map k | k in numbers :: if k in space.ranges then Shifted(numbers[k], space.ranges[k], d.number(k)) else numbers[k]
  }

  function DrawnOptions(options: map<string, string>, d: Draws, space: Space): map<string, string> {
    map k | k in options :: if k in space.choices then d.option(k).GetOr(options[k]) else options[k]
  }

  function Mutated(rb: Rulebook, d: Draws, space: Space): Rulebook {
    Finalize(rb.(
      numbers := ShiftedNumbers(rb.numbers, d, space),
      options := DrawnOptions(rb.options, d, space),
      holdingDays := ShiftedDays(rb.holdingDays, d.days),
      trigger := Shifted(rb.trigger, TRIGGER_RANGE, d.trigger),
      floor := Shifted(rb.floor, FLOOR_RANGE, d.floor),
      threshold := Shifted(rb.threshold, THRESHOLD_RANGE, d.threshold),
      breakeven := d.breakeven.GetOr(rb.breakeven),
      sellOmen := d.sellOmen.GetOr(rb.sellOmen)))
  }

  /** Which genes a child takes from its second parent, by name. */
  type Coins = string -> bool

  /** The genes of `a`, those of the second parent where the coin says so. */
  function Mixed<T>(a: map<string, T>, b: map<string, T>, second: Coins, genes: set<string>): map<string, T> {
    map k | k in a :: if k in genes && k in b && second(k) then b[k] else a[k]
  }

  function Crossed(a: Rulebook, b: Rulebook, second: Coins, space: Space): Rulebook {
    Finalize(a.(
      numbers := Mixed(a.numbers, b.numbers, second, space.ranges.Keys),
      options := Mixed(a.options, b.options, second, space.choices.Keys),
      holdingDays := if second("max_holding_days") then b.holdingDays else a.holdingDays,
      trigger := if second("breakeven_trigger_profit_pct") then b.trigger else a.trigger,
      floor := if second("breakeven_floor_profit_pct") then b.floor else a.floor,
      threshold := if second("sell_omen_threshold") then b.threshold else a.threshold,
      breakeven := if second("breakeven_enabled") then b.breakeven else a.breakeven,
      sellOmen := if second("sell_omen_enabled") then b.sellOmen else a.sellOmen))
  }

  /** In normal form: add-buys off, a masked schema, and the genes behind a switch in range, or at rest when it is off. */
  ghost predicate Final(rb: Rulebook) {
    && rb.addBuy == NO_ADD_BUY && rb.maskSchema >= 1
    && (if rb.breakeven then Within(rb.trigger, TRIGGER_RANGE) && Within(rb.floor, FLOOR_RANGE) else rb.trigger == rb.floor == 0.0)
    && (if rb.sellOmen then Within(rb.threshold, THRESHOLD_RANGE) else rb.threshold == 1.0)
  }

  /** Every independent gene has a value the search may choose. */
  ghost predicate InSpace(rb: Rulebook, space: Space) {
    && (forall k :: k in rb.numbers && k in space.ranges ==> Within(rb.numbers[k], space.ranges[k]))
    && (forall k :: k in rb.options && k in space.choices ==> rb.options[k] in space.choices[k])
    && DAYS_LOW <= rb.holdingDays <= DAYS_HIGH
  }

  /** The ranges are not empty, and the drawn categories are among the choices. */
  ghost predicate Fair(d: Draws, space: Space) {
    && (forall k :: k in space.ranges ==> space.ranges[k].low <= space.ranges[k].high)
    && (forall k :: k in space.choices && d.option(k).Some? ==> d.option(k).value in space.choices[k])
  }

  /** Finalizing reaches the normal form, and leaves a rulebook in it alone. */
  lemma FinalizeReachesNormalForm(rb: Rulebook)
    ensures Final(Finalize(rb))
    ensures Final(rb) <==> Finalize(rb) == rb
  {
  }

  /** Finalizing moves a gene behind a switch that is on into its range, and resets those behind switches that are off; add-buys are
      off, and nothing else changes. */
  lemma FinalizedExactly(rb: Rulebook)
    ensures var f := Finalize(rb);
      && (if rb.breakeven then IsMoved(f.trigger, rb.trigger, 4.0, 8.0) && IsMoved(f.floor, rb.floor, 1.0, 3.0) else f.trigger == 0.0 == f.floor)
      && (if rb.sellOmen then IsMoved(f.threshold, rb.threshold, 0.3, 0.7) else f.threshold == 1.0)
      && f.addBuy == AddBuy(false, 2.0, 1, 0.5, 1.5) && f.maskSchema == (if rb.maskSchema >= 1 then rb.maskSchema else 1)
      && f == rb.(trigger := f.trigger, floor := f.floor, threshold := f.threshold, addBuy := f.addBuy, maskSchema := f.maskSchema)
  {
  }

  /** `to` is `from` moved into the range, if it is outside. */
  predicate IsMoved(to: real, from: real, low: real, high: real) {
    if from < low then to == low else if from > high then to == high else to == from
  }

  /** Rulebooks that differ only in genes behind switches that are off, or in add-buys, become one rulebook. */
  lemma DisabledGenesLeaveNoTrace(rb: Rulebook, trigger: real, floor: real, threshold: real, addBuy: AddBuy)
    ensures !rb.breakeven ==> Finalize(rb.(trigger := trigger, floor := floor)) == Finalize(rb)
    ensures !rb.sellOmen ==> Finalize(rb.(threshold := threshold)) == Finalize(rb)
    ensures Finalize(rb.(addBuy := addBuy)) == Finalize(rb)
  {
  }

  /** A mutant is in the search space exactly when every independent gene was drawn anew or had a value there before. */
  lemma MutantInSpaceExactlyWhen(rb: Rulebook, d: Draws, space: Space)
    requires Fair(d, space)
    ensures Final(Mutated(rb, d, space))
    ensures InSpace(Mutated(rb, d, space), space) <==>
      && (forall k :: k in rb.numbers && k in space.ranges ==> d.number(k).Add? || Within(rb.numbers[k], space.ranges[k]))
      && (forall k :: k in rb.options && k in space.choices ==> d.option(k).Some? || rb.options[k] in space.choices[k])
      && (d.days.Add? || DAYS_LOW <= rb.holdingDays <= DAYS_HIGH)
  {
    var m := Mutated(rb, d, space);
    assert m.numbers.Keys == rb.numbers.Keys && m.options.Keys == rb.options.Keys;
    if InSpace(m, space) {
      forall k | k in rb.numbers && k in space.ranges ensures d.number(k).Add? || Within(rb.numbers[k], space.ranges[k]) {
        assert Within(m.numbers[k], space.ranges[k]);
      }
      forall k | k in rb.options && k in space.choices ensures d.option(k).Some? || rb.options[k] in space.choices[k] {
        assert m.options[k] in space.choices[k];
      }
    }
  }

  /** Crossing stays in the search space and in normal form. */
  lemma ChildInSpace(a: Rulebook, b: Rulebook, second: Coins, space: Space)
    ensures Final(Crossed(a, b, second, space))
    ensures InSpace(a, space) && InSpace(b, space) ==> InSpace(Crossed(a, b, second, space), space)
  {
  }
}

/** The gene operators as loops that set the genes of a copy one by one. */
module GeneLoops {
  import opened Genes

  /** The keys of a dict, each once, in its order. */
  ghost predicate Enumerates(order: seq<string>, keys: set<string>) {
    && (forall k :: k in order <==> k in keys)
    && (forall i, j :: 0 <= i < j < |order| ==> order[i] != order[j])
  }

  method ShiftNumbers(numbers: map<string, real>, d: Draws, space: Space, order: seq<string>) returns (shifted: map<string, real>)
    requires Enumerates(order, space.ranges.Keys)
    ensures shifted == ShiftedNumbers(numbers, d, space)
  {
    hide Shifted;
    shifted := numbers;
    for i := 0 to |order|
      invariant shifted.Keys == numbers.Keys
      invariant forall k :: k in numbers ==>
        shifted[k] == if k in order[..i] then Shifted(numbers[k], space.ranges[k], d.number(k)) else numbers[k]
    {
      var k := order[i];
      assert k !in order[..i];
      if k in shifted { shifted := shifted[k := Shifted(shifted[k], space.ranges[k], d.number(k))]; }
    }
    assert order[..|order|] == order;
  }

  method DrawOptions(options: map<string, string>, d: Draws, space: Space, order: seq<string>) returns (drawn: map<string, string>)
    requires Enumerates(order, space.choices.Keys)
    ensures drawn == DrawnOptions(options, d, space)
  {
    drawn := options;
    for i := 0 to |order|
      invariant drawn.Keys == options.Keys
      invariant forall k :: k in options ==> drawn[k] == if k in order[..i] then d.option(k).GetOr(options[k]) else options[k]
    {
      var k := order[i];
      assert k !in order[..i];
      if k in drawn && d.option(k).Some? { drawn := drawn[k := d.option(k).value]; }
    }
    assert order[..|order|] == order;
  }

  method Mix<T>(a: map<string, T>, b: map<string, T>, second: Coins, genes: set<string>, order: seq<string>) returns (mixed: map<string, T>)
    requires Enumerates(order, genes)
    ensures mixed == Mixed(a, b, second, genes)
  {
    mixed := a;
    for i := 0 to |order|
      invariant mixed.Keys == a.Keys
      invariant forall k :: k in a ==> mixed[k] == if k in order[..i] && k in b && second(k) then b[k] else a[k]
    {
      var k := order[i];
      if k in mixed && k in b && second(k) { mixed := mixed[k := b[k]]; }
    }
    assert order[..|order|] == order;
  }

  /** `mutate`. */
  method Mutate(rb: Rulebook, d: Draws, space: Space, ranges: seq<string>, choices: seq<string>) returns (mutant: Rulebook)
    requires Enumerates(ranges, space.ranges.Keys) && Enumerates(choices, space.choices.Keys)
    ensures mutant == Mutated(rb, d, space)
  {
    hide Shifted, Finalize, ShiftedDays, ShiftedNumbers, DrawnOptions;
    var numbers := ShiftNumbers(rb.numbers, d, space, ranges);
    var options := DrawOptions(rb.options, d, space, choices);
    mutant := rb.(
      numbers := numbers, options := options, holdingDays := ShiftedDays(rb.holdingDays, d.days),
      trigger := Shifted(rb.trigger, TRIGGER_RANGE, d.trigger), floor := Shifted(rb.floor, FLOOR_RANGE, d.floor),
      threshold := Shifted(rb.threshold, THRESHOLD_RANGE, d.threshold),
      breakeven := d.breakeven.GetOr(rb.breakeven), sellOmen := d.sellOmen.GetOr(rb.sellOmen));
    mutant := Finalize(mutant);
  }

  /** `crossover`. */
  method Crossover(a: Rulebook, b: Rulebook, second: Coins, space: Space, ranges: seq<string>, choices: seq<string>) returns (child: Rulebook)
    requires Enumerates(ranges, space.ranges.Keys) && Enumerates(choices, space.choices.Keys)
    ensures child == Crossed(a, b, second, space)
  {
    hide Finalize, Mixed;
    var numbers := Mix(a.numbers, b.numbers, second, space.ranges.Keys, ranges);
    var options := Mix(a.options, b.options, second, space.choices.Keys, choices);
    child := a.(
      numbers := numbers, options := options,
      holdingDays := if second("max_holding_days") then b.holdingDays else a.holdingDays,
      trigger := if second("breakeven_trigger_profit_pct") then b.trigger else a.trigger,
      floor := if second("breakeven_floor_profit_pct") then b.floor else a.floor,
      threshold := if second("sell_omen_threshold") then b.threshold else a.threshold,
      breakeven := if second("breakeven_enabled") then b.breakeven else a.breakeven,
      sellOmen := if second("sell_omen_enabled") then b.sellOmen else a.sellOmen);
    child := Finalize(child);
  }
}

/** The genetic search over rulebooks: what holds of every rulebook it ever evaluates. */
module BredRulebooks {
  import opened Common
  import opened GeneticSpec
  import opened GeneticFacts
  import opened Genes

  ghost predicate AllKeep<G>(genes: seq<G>, keep: G -> bool) {
    forall g :: g in genes ==> keep(g)
  }

  /** Breeding keeps what its parents have. */
  ghost predicate BreedingKeeps<G(!new)>(chance: Chance<G>, keep: G -> bool) {
    forall gen, slot, a, b :: keep(a) && keep(b) ==> keep(chance.child(gen, slot, a, b))
  }

  lemma WinnerIsMember<G(!new)>(pop: seq<Individual<G>>, draw: seq<nat>)
    requires draw != [] && forall i :: 0 <= i < |draw| ==> draw[i] < |pop|
    ensures TournamentSelect(pop, draw) in pop
  {
  }

  lemma ChildKeeps<G(!new)>(pop: seq<Individual<G>>, gen: nat, slot: nat, k: nat, chance: Chance<G>, keep: G -> bool)
    requires pop != [] && k > 0 && FairDraws(chance, k)
    requires BreedingKeeps(chance, keep) && forall x :: x in pop ==> keep(x.genes)
    ensures keep(ChildGenes(pop, gen, slot, k, chance))
  {
    hide TournamentSelect;
    WinnerIsMember(pop, chance.contenders(gen, slot, 0, |pop|));
    WinnerIsMember(pop, chance.contenders(gen, slot, 1, |pop|));
  }

  lemma {:induction false} OffspringKeep<G(!new)>(pop: seq<Individual<G>>, gen: nat, slot: nat, cfg: GAConfig, chance: Chance<G>, keep: G -> bool)
    requires pop != [] && cfg.tournamentSize > 0 && FairDraws(chance, cfg.tournamentSize)
    requires BreedingKeeps(chance, keep) && forall x :: x in pop ==> keep(x.genes)
    ensures AllKeep(Offspring(pop, gen, slot, cfg, chance), keep)
    decreases cfg.population - slot
  {
    hide FairDraws, BreedingKeeps, ChildGenes;
    if slot < cfg.population {
      ChildKeeps(pop, gen, slot, cfg.tournamentSize, chance, keep);
      OffspringKeep(pop, gen, slot + 1, cfg, chance, keep);
    }
  }

  lemma GenerationKeeps<G(!new)>(st: Search<G>, gen: nat, cfg: GAConfig, chance: Chance<G>, fit: G -> real, keep: G -> bool)
    requires st.population != [] && Honest(st, fit) && cfg.tournamentSize > 0 && FairDraws(chance, cfg.tournamentSize)
    requires BreedingKeeps(chance, keep) && AllKeep(st.calls, keep)
    ensures AllKeep(Generation(st, gen, cfg, chance, fit).calls, keep)
  {
    hide BreedingKeeps, FairDraws, Offspring, Evaluated;
    var ranked := Ranked(st.population);
    Ranking(st.population);
    OffspringKeep(ranked, gen, Min(EliteCount(cfg), |ranked|), cfg, chance, keep);
  }

  lemma {:induction false} GenerationsKeep<G(!new)>(
    st: Search<G>, gen: nat, cfg: GAConfig, chance: Chance<G>, fit: G -> real, keep: G -> bool)
    requires Sound(st, fit) && cfg.tournamentSize > 0 && FairDraws(chance, cfg.tournamentSize)
    requires BreedingKeeps(chance, keep) && AllKeep(st.calls, keep)
    ensures AllKeep(Generations(st, gen, cfg, chance, fit).calls, keep)
    decreases cfg.generations + 1 - gen
  {
    hide BreedingKeeps, FairDraws, Honest, NothingLost, Climbing, Generation, AllKeep;
    if !st.stopped && gen <= cfg.generations {
      GenerationKeeps(st, gen, cfg, chance, fit, keep);
      GenerationIsSound(st, gen, cfg, chance, fit);
      GenerationsKeep(Generation(st, gen, cfg, chance, fit), gen + 1, cfg, chance, fit, keep);
    }
  }

  /** What the first population has and breeding keeps holds of everything a search evaluates. */
  lemma SearchKeeps<G(!new)>(cfg: GAConfig, seeds: seq<G>, chance: Chance<G>, fit: G -> real, keep: G -> bool)
    requires cfg.population > 0 && cfg.tournamentSize > 0 && FairDraws(chance, cfg.tournamentSize)
    requires BreedingKeeps(chance, keep) && AllKeep(InitialGenes(cfg, seeds, chance), keep)
    ensures AllKeep(SearchRun(cfg, seeds, chance, fit).calls, keep)
  {
    StartIsSound(cfg, seeds, chance, fit);
    GenerationsKeep(StartSearch(cfg, seeds, chance, fit), 1, cfg, chance, fit, keep);
  }

  /** All random decisions of a search over rulebooks. */
  datatype Dice = Dice(
    seed: nat -> Draws, random: nat -> Rulebook, contenders: (nat, nat, nat, nat) -> seq<nat>,
    coins: (nat, nat) -> Coins, mutation: (nat, nat) -> Draws)

  /** The choices of the search: seeds are mutated, random rulebooks finalized, children crossed, then mutated. */
  function ChanceOf(dice: Dice, space: Space): Chance<Rulebook> {
    Chance(
      (i: nat, rb: Rulebook) => Mutated(rb, dice.seed(i), space),
      (i: nat) => Finalize(dice.random(i)),
      dice.contenders,
      (gen: nat, slot: nat, a: Rulebook, b: Rulebook) =>
        Mutated(Crossed(a, b, dice.coins(gen, slot), space), dice.mutation(gen, slot), space))
  }

  /** The draws are fair, and random rulebooks are drawn from the search space. */
  ghost predicate FairDice(dice: Dice, space: Space) {
    && (forall i :: Fair(dice.seed(i), space))
    && (forall gen, slot :: Fair(dice.mutation(gen, slot), space))
    && (forall i :: InSpace(dice.random(i), space))
  }

  /** Every rulebook a search evaluates is in normal form; and all are in the search space when the seeds are. */
  lemma EveryBredRulebook(cfg: GAConfig, seeds: seq<Rulebook>, dice: Dice, space: Space, fit: Rulebook -> real)
    requires cfg.population > 0 && cfg.tournamentSize > 0 && FairDraws(ChanceOf(dice, space), cfg.tournamentSize)
    requires FairDice(dice, space)
    ensures var calls := SearchRun(cfg, seeds, ChanceOf(dice, space), fit).calls;
      && (forall rb :: rb in calls ==> Final(rb))
      && ((forall rb :: rb in seeds ==> InSpace(rb, space)) ==> forall rb :: rb in calls ==> InSpace(rb, space))
  {
    hide FairDraws, Final, InSpace;
    var chance := ChanceOf(dice, space);
    FirstAreFinal(cfg, seeds, dice, space);
    BreedingKeepsFinal(dice, space);
    SearchKeeps(cfg, seeds, chance, fit, FinalTest());
    if forall rb :: rb in seeds ==> InSpace(rb, space) {
      FirstAreInSpace(cfg, seeds, dice, space);
      BreedingKeepsInSpace(dice, space);
      SearchKeeps(cfg, seeds, chance, fit, InSpaceTest(space));
    }
  }

  ghost function FinalTest(): Rulebook -> bool { (rb: Rulebook) => Final(rb) }

  ghost function InSpaceTest(space: Space): Rulebook -> bool { (rb: Rulebook) => InSpace(rb, space) }

  lemma BreedingKeepsFinal(dice: Dice, space: Space)
    requires FairDice(dice, space)
    ensures BreedingKeeps(ChanceOf(dice, space), FinalTest())
  {
    hide Final, InSpace, Fair;
    forall gen: nat, slot: nat, a: Rulebook, b: Rulebook ensures FinalTest()(ChanceOf(dice, space).child(gen, slot, a, b)) {
      MutantInSpaceExactlyWhen(Crossed(a, b, dice.coins(gen, slot), space), dice.mutation(gen, slot), space);
    }
  }

  lemma BreedingKeepsInSpace(dice: Dice, space: Space)
    requires FairDice(dice, space)
    ensures BreedingKeeps(ChanceOf(dice, space), InSpaceTest(space))
  {
    hide Fair;
    forall gen: nat, slot: nat, a: Rulebook, b: Rulebook | InSpace(a, space) && InSpace(b, space)
      ensures InSpaceTest(space)(ChanceOf(dice, space).child(gen, slot, a, b))
    {
      ChildInSpace(a, b, dice.coins(gen, slot), space);
      MutantInSpace(Crossed(a, b, dice.coins(gen, slot), space), dice.mutation(gen, slot), space);
    }
  }

  lemma MutantInSpace(rb: Rulebook, d: Draws, space: Space)
    requires Fair(d, space) && InSpace(rb, space)
    ensures InSpace(Mutated(rb, d, space), space)
  {
    MutantInSpaceExactlyWhen(rb, d, space);
  }

  lemma FirstAreFinal(cfg: GAConfig, seeds: seq<Rulebook>, dice: Dice, space: Space)
    requires FairDice(dice, space)
    ensures AllKeep(InitialGenes(cfg, seeds, ChanceOf(dice, space)), FinalTest())
  {
    hide Final, InSpace, Fair, Mutated, Finalize;
    forall i: nat, rb: Rulebook ensures Final(Mutated(rb, dice.seed(i), space)) {
      MutantInSpaceExactlyWhen(rb, dice.seed(i), space);
    }
    forall i: nat ensures Final(Finalize(dice.random(i))) {
      FinalizeReachesNormalForm(dice.random(i));
    }
  }

  lemma FinalizeKeepsSpace(rb: Rulebook, space: Space)
    ensures InSpace(Finalize(rb), space) <==> InSpace(rb, space)
  {
  }

  lemma FirstAreInSpace(cfg: GAConfig, seeds: seq<Rulebook>, dice: Dice, space: Space)
    requires FairDice(dice, space) && forall rb :: rb in seeds ==> InSpace(rb, space)
    ensures AllKeep(InitialGenes(cfg, seeds, ChanceOf(dice, space)), InSpaceTest(space))
  {
    hide InSpace, Fair, Mutated, Finalize;
    forall i: nat, rb: Rulebook | InSpace(rb, space) ensures InSpace(Mutated(rb, dice.seed(i), space), space) {
      MutantInSpace(rb, dice.seed(i), space);
    }
    forall i: nat ensures InSpace(Finalize(dice.random(i)), space) {
      FinalizeKeepsSpace(dice.random(i), space);
    }
  }
}
