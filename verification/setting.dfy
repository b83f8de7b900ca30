/**
 * Built-in constants of the colony: the lab reaction graph, the standing lab
 * production plan, the factory lock thresholds, the lab cluster states and
 * the default creep memory.
 */
module Setting {
  import opened Wrappers

  /** The seven raw minerals (H, O, U, L, K, Z, X). */
  datatype Mineral = Hydrogen | Oxygen | Utrium | Lemergium | Keanium | Zynthium | Catalyst

  /** The five elements that name the boosting compounds: U, L, K, Z and G. */
  datatype Element = U | L | K | Z | G

  /**
   * A resource type. The mineral compounds are named after their in-game
   * constants (`Hydride(K)` is KH, `Alkalide(G)` is GHO2,
   * `CatalyzedAlkalide(G)` is XGHO2); `OtherResource` stands for every resource
   * the lab tables do not mention (bars, commodities, power, ...).
   */
  datatype Resource =
    | Raw(mineral: Mineral)
    | Ghodium
    | Hydroxide
    | ZynthiumKeanite
    | UtriumLemergite
    | Hydride(element: Element)
    | Oxide(element: Element)
    | Acid(element: Element)
    | Alkalide(element: Element)
    | CatalyzedAcid(element: Element)
    | CatalyzedAlkalide(element: Element)
    | Energy
    | OtherResource(name: string)

  /** The resource an element letter stands for: U is raw utrium, G is ghodium. */
  function ElementResource(e: Element): Resource
  {
    match e
    case U => Raw(Utrium)
    case L => Raw(Lemergium)
    case K => Raw(Keanium)
    case Z => Raw(Zynthium)
    case G => Ghodium
  }

  /** Resources that take part in lab reactions at all (everything but energy and the rest). */
  predicate InReactionGraph(r: Resource)
  {
    !r.Energy? && !r.OtherResource?
  }

  function Max(a: nat, b: nat): nat
  {
    if a < b then b else a
  }

  /**
   * The tier of a resource, written out independently of the reaction table:
   * raw minerals are 0, the base compounds OH/ZK/UL are 1, G is 2, and each
   * further reaction on top of an element adds one (G-based compounds start
   * two tiers higher because G itself is made from ZK and UL).
   */
  function Rank(r: Resource): nat
  {
    match r
    case Raw(_) => 0
    case Hydroxide => 1
    case ZynthiumKeanite => 1
    case UtriumLemergite => 1
    case Ghodium => 2
    case Hydride(e) => ElementRank(e) + 1
    case Oxide(e) => ElementRank(e) + 1
    case Acid(e) => ElementRank(e) + 2
    case Alkalide(e) => ElementRank(e) + 2
    case CatalyzedAcid(e) => ElementRank(e) + 3
    case CatalyzedAlkalide(e) => ElementRank(e) + 3
    case Energy => 0
    case OtherResource(_) => 0
  }

  function ElementRank(e: Element): nat
  {
    if e == G then 2 else 0
  }

  /**
   * `reactionSource`: the two substrates a lab reaction needs to make
   * `product`, or `None` when nothing in the table produces it.
   * The contract says that every entry has exactly two substrates, both lab
   * resources; `ReactionSourceLayered` adds how the tiers line up.
   */
  function ReactionSource(product: Resource): (substrates: Option<seq<Resource>>)
    ensures substrates.Some? ==> |substrates.value| == 2
    ensures substrates.Some? ==>
      InReactionGraph(substrates.value[0]) && InReactionGraph(substrates.value[1])
  {
    match product
    // tier-3 compounds
    case CatalyzedAcid(G) => Some([Acid(G), Raw(Catalyst)])
    case CatalyzedAlkalide(G) => Some([Alkalide(G), Raw(Catalyst)])
    case CatalyzedAcid(K) => Some([Acid(K), Raw(Catalyst)])
    case CatalyzedAlkalide(K) => Some([Alkalide(K), Raw(Catalyst)])
    case CatalyzedAcid(L) => Some([Acid(L), Raw(Catalyst)])
    case CatalyzedAlkalide(L) => Some([Alkalide(L), Raw(Catalyst)])
    case CatalyzedAcid(U) => Some([Acid(U), Raw(Catalyst)])
    case CatalyzedAlkalide(U) => Some([Alkalide(U), Raw(Catalyst)])
    case CatalyzedAcid(Z) => Some([Acid(Z), Raw(Catalyst)])
    case CatalyzedAlkalide(Z) => Some([Alkalide(Z), Raw(Catalyst)])
    // tier-2 compounds
    case Acid(G) => Some([Hydride(G), Hydroxide])
    case Alkalide(G) => Some([Oxide(G), Hydroxide])
    case Acid(K) => Some([Hydride(K), Hydroxide])
    case Alkalide(K) => Some([Oxide(K), Hydroxide])
    case Acid(L) => Some([Hydride(L), Hydroxide])
    case Alkalide(L) => Some([Oxide(L), Hydroxide])
    case Acid(U) => Some([Hydride(U), Hydroxide])
    case Alkalide(U) => Some([Oxide(U), Hydroxide])
    case Acid(Z) => Some([Hydride(Z), Hydroxide])
    case Alkalide(Z) => Some([Oxide(Z), Hydroxide])
    // tier-1 compounds
    case Hydride(G) => Some([Ghodium, Raw(Hydrogen)])
    case Oxide(G) => Some([Ghodium, Raw(Oxygen)])
    case Hydride(K) => Some([Raw(Keanium), Raw(Hydrogen)])
    case Oxide(K) => Some([Raw(Keanium), Raw(Oxygen)])
    case Hydride(L) => Some([Raw(Lemergium), Raw(Hydrogen)])
    case Oxide(L) => Some([Raw(Lemergium), Raw(Oxygen)])
    case Hydride(U) => Some([Raw(Utrium), Raw(Hydrogen)])
    case Oxide(U) => Some([Raw(Utrium), Raw(Oxygen)])
    case Hydride(Z) => Some([Raw(Zynthium), Raw(Hydrogen)])
    case Oxide(Z) => Some([Raw(Zynthium), Raw(Oxygen)])
    case Ghodium => Some([ZynthiumKeanite, UtriumLemergite])
    // base compounds
    case ZynthiumKeanite => Some([Raw(Zynthium), Raw(Keanium)])
    case UtriumLemergite => Some([Raw(Utrium), Raw(Lemergium)])
    case Hydroxide => Some([Raw(Hydrogen), Raw(Oxygen)])
    case _ => None
  }

  /**
   * The table is layered: a product sits exactly one tier above its higher
   * substrate, and resources without an entry are of tier 0. This makes the
   * reaction graph acyclic.
   */
  lemma ReactionSourceLayered(product: Resource)
    ensures ReactionSource(product).Some? ==>
      var substrates := ReactionSource(product).value;
      Rank(product) == 1 + Max(Rank(substrates[0]), Rank(substrates[1]))
    ensures ReactionSource(product).None? ==> Rank(product) == 0
  {
    match product
    case CatalyzedAcid(e) =>
    case CatalyzedAlkalide(e) =>
    case Acid(e) =>
    case Alkalide(e) =>
    case Hydride(e) =>
    case Oxide(e) =>
    case _ =>
  }

  predicate HasReaction(r: Resource)
  {
    ReactionSource(r).Some?
  }

  /** The substrates of `r`, empty when `r` has no entry. */
  function Substrates(r: Resource): seq<Resource>
  {
    match ReactionSource(r)
    case Some(s) => s
    case None => []
  }

  /** Each substrate is of a strictly lower tier than its product. */
  lemma SubstrateRankBelow(r: Resource, s: Resource)
    requires s in Substrates(r)
    ensures Rank(s) < Rank(r) <= 5
  {
    ReactionSourceLayered(r);
    var substrates := ReactionSource(r).value;
    assert s == substrates[0] || s == substrates[1];
  }

  // ---------------------------------------------------------------------
  // Shape of the table
  // ---------------------------------------------------------------------

  /** Exactly the lab compounds other than the seven raw minerals have an entry. */
  lemma ProductsAreNonRawCompounds(r: Resource)
    ensures HasReaction(r) <==> InReactionGraph(r) && !r.Raw?
    ensures HasReaction(r) ==> |Substrates(r)| == 2
  {
  }

  /** Every tier-3 compound is its tier-2 acid or alkalide plus the catalyst X. */
  lemma CatalyzedRecipes(e: Element)
    ensures ReactionSource(CatalyzedAcid(e)) == Some([Acid(e), Raw(Catalyst)])
    ensures ReactionSource(CatalyzedAlkalide(e)) == Some([Alkalide(e), Raw(Catalyst)])
  {
  }

  /** Every tier-2 acid/alkalide is the element's hydride/oxide plus hydroxide. */
  lemma Tier2Recipes(e: Element)
    ensures ReactionSource(Acid(e)) == Some([Hydride(e), Hydroxide])
    ensures ReactionSource(Alkalide(e)) == Some([Oxide(e), Hydroxide])
  {
  }

  /** Every hydride pairs its element with H, every oxide with O. */
  lemma Tier1Recipes(e: Element)
    ensures ReactionSource(Hydride(e)) == Some([ElementResource(e), Raw(Hydrogen)])
    ensures ReactionSource(Oxide(e)) == Some([ElementResource(e), Raw(Oxygen)])
  {
  }

  // ---------------------------------------------------------------------
  // Recursive expansion of the table
  // ---------------------------------------------------------------------

  /** The full reaction tree of a resource: a leaf where the table has no entry. */
  datatype ReactionTree =
    | Leaf(resource: Resource)
    | Node(product: Resource, first: ReactionTree, second: ReactionTree)
  {
    function Root(): Resource
    {
      if Leaf? then resource else product
    }

    /** Number of reaction steps on the longest path from the root to a leaf. */
    function Height(): nat
    {
      if Leaf? then 0 else 1 + Max(first.Height(), second.Height())
    }

    /** The raw materials at the bottom of the tree. */
    function Leaves(): seq<Resource>
    {
      if Leaf? then [resource] else first.Leaves() + second.Leaves()
    }

    /** Every resource that occurs strictly below the root. */
    function Descendants(): set<Resource>
    {
      if Leaf? then {} else {first.Root(), second.Root()} + first.Descendants() + second.Descendants()
    }
  }

  /**
   * Expand a product recursively through `reactionSource` until resources
   * with no entry are reached. Termination is the acyclicity of the table:
   * every substrate has a strictly lower rank than its product.
   */
  function Expand(product: Resource): (tree: ReactionTree)
    decreases Rank(product)
  {
    ReactionSourceLayered(product);
    match ReactionSource(product)
    case None => Leaf(product)
    case Some(s) => Node(product, Expand(s[0]), Expand(s[1]))
  }

  /** The tier is exactly the depth of the reaction tree. */
  lemma {:induction false} ExpandHeightIsRank(r: Resource)
    ensures Expand(r).Height() == Rank(r)
    decreases Rank(r)
  {
    ReactionSourceLayered(r);
    match ReactionSource(r)
    case None =>
    case Some(s) =>
      ExpandHeightIsRank(s[0]);
      ExpandHeightIsRank(s[1]);
  }

  /** No expansion is deeper than five reactions, and XGHO2 needs all five. */
  lemma LongestExpansion(r: Resource)
    ensures Expand(r).Height() <= 5
    ensures Expand(CatalyzedAlkalide(G)).Height() == 5
  {
    ExpandHeightIsRank(r);
    ExpandHeightIsRank(CatalyzedAlkalide(G));
  }

  /** Expanding any lab resource bottoms out in raw minerals only. */
  lemma {:induction false} ExpandLeavesAreRawMinerals(r: Resource)
    requires InReactionGraph(r)
    ensures forall leaf <- Expand(r).Leaves() :: leaf.Raw? && !HasReaction(leaf)
    decreases Rank(r)
  {
    ReactionSourceLayered(r);
    match ReactionSource(r)
    case None =>
    case Some(s) =>
      ExpandLeavesAreRawMinerals(s[0]);
      ExpandLeavesAreRawMinerals(s[1]);
  }

  /** Everything below a product in its tree has a strictly lower rank. */
  lemma {:induction false} DescendantsRankBelow(r: Resource)
    ensures forall d <- Expand(r).Descendants() :: Rank(d) < Rank(r)
    decreases Rank(r)
  {
    ReactionSourceLayered(r);
    match ReactionSource(r)
    case None =>
    case Some(s) =>
      DescendantsRankBelow(s[0]);
      DescendantsRankBelow(s[1]);
  }

  /** No product is its own ancestor. */
  lemma NoProductIsItsOwnAncestor(r: Resource)
    ensures r !in Expand(r).Descendants()
  {
    DescendantsRankBelow(r);
  }

  /** `path` follows the table: each element is a substrate of the one before it. */
  predicate IsChain(path: seq<Resource>)
  {
    forall i :: 0 < i < |path| ==> path[i] in Substrates(path[i - 1])
  }

  /** A chain starting at `r` has at most `Rank(r)` steps, hence at most five. */
  lemma {:induction false} ChainsAreShort(path: seq<Resource>)
    requires |path| > 0 && IsChain(path)
    ensures |path| - 1 <= Rank(path[0]) <= 5
  {
    if |path| > 1 {
      assert IsChain(path[1..]) by {
        forall i | 0 < i < |path[1..]|
          ensures path[1..][i] in Substrates(path[1..][i - 1])
        {
          assert path[1..][i] == path[i + 1];
        }
      }
      ChainsAreShort(path[1..]);
      SubstrateRankBelow(path[0], path[1]);
    }
  }

  /** XGHO2 -> GHO2 -> GO -> G -> ZK -> Z is a chain of five reactions. */
  lemma LongestChainExample()
    ensures IsChain([CatalyzedAlkalide(G), Alkalide(G), Oxide(G), Ghodium, ZynthiumKeanite, Raw(Zynthium)])
  {
  }

  // ---------------------------------------------------------------------
  // The standing lab production plan
  // ---------------------------------------------------------------------

  /** One entry of `labTarget`: produce `target` until `number` are stored. */
  datatype LabTarget = LabTarget(target: Resource, number: nat)

  /** `labTarget`, in priority order. */
  const LabTargets: seq<LabTarget> := [
    // base compounds
    LabTarget(Hydroxide, 4000),
    LabTarget(ZynthiumKeanite, 4000),
    LabTarget(UtriumLemergite, 4000),
    // G
    LabTarget(Ghodium, 5000),
    // XKHO2 line (RANGED_ATTACK boost)
    LabTarget(Oxide(K), 3000),
    LabTarget(Alkalide(K), 2000),
    LabTarget(CatalyzedAlkalide(K), 1000),
    // XLHO2 line (HEAL boost)
    LabTarget(Oxide(L), 3000),
    LabTarget(Alkalide(L), 2000),
    LabTarget(CatalyzedAlkalide(L), 1000),
    // XZHO2 line (MOVE boost)
    LabTarget(Oxide(Z), 3000),
    LabTarget(Alkalide(Z), 2000),
    LabTarget(CatalyzedAlkalide(Z), 1000),
    // XGHO2 line (TOUGH boost)
    LabTarget(Oxide(G), 3000),
    LabTarget(Alkalide(G), 2000),
    LabTarget(CatalyzedAlkalide(G), 1000)
  ]

  /** Every plan target is made by a lab reaction. */
  lemma LabTargetsAreProducts()
    ensures forall i :: 0 <= i < |LabTargets| ==> HasReaction(LabTargets[i].target)
  {
  }

  /** OH, ZK, UL, then G from ZK and UL. */
  lemma BasePlanInOrder()
    ensures forall i :: 0 <= i < 4 ==>
      forall s <- Substrates(LabTargets[i].target) :: HasReaction(s) ==>
        exists j :: 0 <= j < i && LabTargets[j].target == s
  {
    forall i | 0 <= i < 4
      ensures forall s <- Substrates(LabTargets[i].target) :: HasReaction(s) ==>
          exists j :: 0 <= j < i && LabTargets[j].target == s
    {
      if i == 0 {
      } else if i == 1 {
      } else if i == 2 {
      } else {
        assert i == 3;
        assert LabTargets[1].target == ZynthiumKeanite && LabTargets[2].target == UtriumLemergite;
      }
    }
  }

  /** The XKHO2 line: KO, KHO2, XKHO2. */
  lemma KeaniumLineInOrder()
    ensures forall i :: 4 <= i < 7 ==>
      forall s <- Substrates(LabTargets[i].target) :: HasReaction(s) ==>
        exists j :: 0 <= j < i && LabTargets[j].target == s
  {
    forall i | 4 <= i < 7
      ensures forall s <- Substrates(LabTargets[i].target) :: HasReaction(s) ==>
          exists j :: 0 <= j < i && LabTargets[j].target == s
    {
      if i == 4 {
      } else if i == 5 {
        assert LabTargets[4].target == Oxide(K) && LabTargets[0].target == Hydroxide;
      } else {
        assert i == 6;
        assert LabTargets[5].target == Alkalide(K);
      }
    }
  }

  /** The XLHO2 line: LO, LHO2, XLHO2. */
  lemma LemergiumLineInOrder()
    ensures forall i :: 7 <= i < 10 ==>
      forall s <- Substrates(LabTargets[i].target) :: HasReaction(s) ==>
        exists j :: 0 <= j < i && LabTargets[j].target == s
  {
    forall i | 7 <= i < 10
      ensures forall s <- Substrates(LabTargets[i].target) :: HasReaction(s) ==>
          exists j :: 0 <= j < i && LabTargets[j].target == s
    {
      if i == 7 {
      } else if i == 8 {
        assert LabTargets[7].target == Oxide(L) && LabTargets[0].target == Hydroxide;
      } else {
        assert i == 9;
        assert LabTargets[8].target == Alkalide(L);
      }
    }
  }

  /** The XZHO2 line: ZO, ZHO2, XZHO2. */
  lemma ZynthiumLineInOrder()
    ensures forall i :: 10 <= i < 13 ==>
      forall s <- Substrates(LabTargets[i].target) :: HasReaction(s) ==>
        exists j :: 0 <= j < i && LabTargets[j].target == s
  {
    forall i | 10 <= i < 13
      ensures forall s <- Substrates(LabTargets[i].target) :: HasReaction(s) ==>
          exists j :: 0 <= j < i && LabTargets[j].target == s
    {
      if i == 10 {
      } else if i == 11 {
        assert LabTargets[10].target == Oxide(Z) && LabTargets[0].target == Hydroxide;
      } else {
        assert i == 12;
        assert LabTargets[11].target == Alkalide(Z);
      }
    }
  }

  /** The XGHO2 line: GO, GHO2, XGHO2; GO also needs the G planned at index 3. */
  lemma GhodiumLineInOrder()
    ensures forall i :: 13 <= i < 16 ==>
      forall s <- Substrates(LabTargets[i].target) :: HasReaction(s) ==>
        exists j :: 0 <= j < i && LabTargets[j].target == s
  {
    forall i | 13 <= i < 16
      ensures forall s <- Substrates(LabTargets[i].target) :: HasReaction(s) ==>
          exists j :: 0 <= j < i && LabTargets[j].target == s
    {
      if i == 13 {
        assert LabTargets[3].target == Ghodium;
      } else if i == 14 {
        assert LabTargets[13].target == Oxide(G) && LabTargets[0].target == Hydroxide;
      } else {
        assert i == 15;
        assert LabTargets[14].target == Alkalide(G);
      }
    }
  }

  /**
   * Every substrate of a plan target that is itself a product appears earlier
   * in the plan (KO and OH before KHO2, KHO2 before XKHO2, ...).
   */
  lemma LabTargetsInDependencyOrder()
    ensures forall i :: 0 <= i < |LabTargets| ==>
      forall s <- Substrates(LabTargets[i].target) :: HasReaction(s) ==>
        exists j :: 0 <= j < i && LabTargets[j].target == s
  {
    BasePlanInOrder();
    KeaniumLineInOrder();
    LemergiumLineInOrder();
    ZynthiumLineInOrder();
    GhodiumLineInOrder();
  }

  // ---------------------------------------------------------------------
  // Factory locks, lab states and creep memory
  // ---------------------------------------------------------------------

  /** `FACTORY_LOCK_AMOUNT`: the factory only consumes these above the given stock. */
  const FactoryLockAmount: map<Resource, nat> := map[
    Raw(Hydrogen) := 40000,
    Raw(Oxygen) := 40000,
    Raw(Utrium) := 40000,
    Raw(Lemergium) := 40000,
    Raw(Keanium) := 40000,
    Raw(Zynthium) := 40000,
    Raw(Catalyst) := 40000,
    Ghodium := 40000
  ]

  /** Exactly the seven raw minerals and G are locked, each at 40000. */
  lemma FactoryLocksAreRawMineralsAndGhodium(r: Resource)
    ensures r in FactoryLockAmount <==> r.Raw? || r == Ghodium
    ensures r in FactoryLockAmount ==> FactoryLockAmount[r] == 40000
  {
    if r.Raw? {
      match r.mineral
      case Hydrogen =>
      case Oxygen =>
      case Utrium =>
      case Lemergium =>
      case Keanium =>
      case Zynthium =>
      case Catalyst =>
    }
  }

  /** `LAB_STATE`: the four working states of a lab cluster. */
  datatype LabState = GetTarget | GetResource | Working | PutResource

  /** The string each state is stored as. */
  function LabStateName(s: LabState): string
  {
    match s
    case GetTarget => "getTarget"
    case GetResource => "getResource"
    case Working => "working"
    case PutResource => "putResource"
  }

  /** The four stored state names are pairwise distinct. */
  lemma LabStateNamesDistinct(s: LabState, t: LabState)
    ensures LabStateName(s) == LabStateName(t) ==> s == t
  {
  }

  /** A creep's persistent memory as far as the core uses it. */
  datatype CreepMemory = CreepMemory(role: string, ready: bool, working: bool, path: seq<string>)

  /** `creepDefaultMemory`: a freshly spawned creep has no role, is neither ready nor working. */
  const CreepDefaultMemory: CreepMemory := CreepMemory("", false, false, [])
}
