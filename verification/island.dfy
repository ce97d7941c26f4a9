/** The player page of the island builder (app/page.tsx): a team earns three
    resources by answering quiz questions and spends them on buildings.
    The pure record computations (reward, deduction, affordability, level,
    asset lookup) are functions; the page's React state is the class
    `PlayerPage`, whose methods are the event handlers. Every database call
    is replaced by a parameter that carries its result. */
module Island {
  import opened Wrappers

  /** Units credited for one correct answer. */
  const REWARD: int := 20

  /** The three question categories the page offers. */
  const LISTENING: string := "listening"
  const READING: string := "reading"
  const VOCAB: string := "vocab"

  /** A row of the `teams` table. Resource counters are integers. */
  datatype Team = Team(id: string, name: string, electricity: int, bricks: int, chips: int)

  /** A row of the `building_blueprints` catalogue. */
  datatype Blueprint = Blueprint(
    id: int, name: string, description: string,
    costElectricity: int, costBricks: int, costChips: int, iconName: string)

  /** A constructed building; `isOptimistic` is false (undefined) for rows read from the database. */
  datatype BuiltBuilding = BuiltBuilding(
    id: string, blueprintId: int, builtAt: string,
    blueprint: Option<Blueprint>, isOptimistic: bool)

  /** A row of the `questions` table; `category` is its `type` column. */
  datatype Question = Question(
    id: int, category: string, prompt: string, promptZh: string,
    options: seq<string>, optionsZh: seq<string>, answer: int, explanation: string)

  /** The credit granted for one answer, per resource. */
  datatype Reward = Reward(elec: int, brick: int, chip: int)

  /** How a building is drawn. */
  datatype Asset = Asset(emoji: string, color: string, scale: string)

  predicate IsKnownCategory(category: string) {
    category == LISTENING || category == READING || category == VOCAB
  }

  function Total(t: Team): int {
    t.electricity + t.bricks + t.chips
  }

  /** The intended (not enforced) invariant of a team: no resource is negative. */
  predicate NonNegative(t: Team) {
    t.electricity >= 0 && t.bricks >= 0 && t.chips >= 0
  }

  // ---------------------------------------------------------------------
  // Reward rule
  // ---------------------------------------------------------------------

  /** The reward for a correct answer: three independent tests on the
      category, each of which may set one channel to `REWARD`. A known
      category credits exactly one channel; any other credits nothing. */
  function RewardFor(category: string): (r: Reward)
    ensures r.elec >= 0 && r.brick >= 0 && r.chip >= 0
    ensures r.elec + r.brick + r.chip == if IsKnownCategory(category) then REWARD else 0
    ensures r.elec == 0 || (r.brick == 0 && r.chip == 0)
    ensures r.brick == 0 || r.chip == 0
  {
    var none := Reward(0, 0, 0);
    var afterListening := if category == LISTENING then none.(elec := REWARD) else none;
    var afterReading := if category == READING then afterListening.(brick := REWARD) else afterListening;
    if category == VOCAB then afterReading.(chip := REWARD) else afterReading
  }

  /** The team record after a reward is added, all other fields kept. */
  function Credit(t: Team, r: Reward): (t': Team)
    ensures Total(t') == Total(t) + r.elec + r.brick + r.chip
  {
    t.(electricity := t.electricity + r.elec, bricks := t.bricks + r.brick, chips := t.chips + r.chip)
  }

  /** A correct answer credits `REWARD` to the channel of its category and
      leaves the other two channels, the id and the name as they were. */
  lemma CreditByCategory(t: Team, category: string)
    ensures var t' := Credit(t, RewardFor(category));
      t'.id == t.id && t'.name == t.name &&
      (category == LISTENING ==>
         t'.electricity == t.electricity + REWARD && t'.bricks == t.bricks && t'.chips == t.chips) &&
      (category == READING ==>
         t'.electricity == t.electricity && t'.bricks == t.bricks + REWARD && t'.chips == t.chips) &&
      (category == VOCAB ==>
         t'.electricity == t.electricity && t'.bricks == t.bricks && t'.chips == t.chips + REWARD) &&
      (!IsKnownCategory(category) ==> t' == t)
  {
  }

  /** A reward never makes a resource negative. */
  lemma CreditKeepsNonNegative(t: Team, category: string)
    requires NonNegative(t)
    ensures NonNegative(Credit(t, RewardFor(category)))
    ensures Total(Credit(t, RewardFor(category))) == Total(t) + if IsKnownCategory(category) then REWARD else 0
  {
  }

  // ---------------------------------------------------------------------
  // Build transaction and the shop
  // ---------------------------------------------------------------------

  /** The guard of the build handler: some resource is below its cost. It
      refuses exactly the builds whose payment would leave a resource
      negative. */
  predicate Rejected(t: Team, bp: Blueprint)
    ensures Rejected(t, bp) <==> !NonNegative(Deduct(t, bp))
  {
    t.electricity < bp.costElectricity || t.bricks < bp.costBricks || t.chips < bp.costChips
  }

  /** The shop's test that enables a blueprint's button; an affordable
      blueprint never costs more than the team holds in total. */
  predicate CanAfford(t: Team, bp: Blueprint)
    ensures CanAfford(t, bp) ==> TotalCost(bp) <= Total(t)
  {
    t.electricity >= bp.costElectricity && t.bricks >= bp.costBricks && t.chips >= bp.costChips
  }

  /** A button is enabled exactly when the build handler would not reject. */
  lemma CanAffordIffNotRejected(t: Team, bp: Blueprint)
    ensures CanAfford(t, bp) <==> !Rejected(t, bp)
  {
  }

  /** A blueprint costing 10 electricity is not affordable with 5, so its
      button is disabled and the build handler rejects it. */
  lemma ShopDisablesUnaffordable(t: Team, bp: Blueprint)
    requires bp.costElectricity == 10 && bp.costBricks == 0 && bp.costChips == 0
    requires t.electricity == 5
    ensures !CanAfford(t, bp) && Rejected(t, bp)
  {
  }

  function TotalCost(bp: Blueprint): int {
    bp.costElectricity + bp.costBricks + bp.costChips
  }

  /** The team record after paying for a blueprint. The result has no
      negative resource exactly when the blueprint was affordable, so a
      guarded build keeps the invariant `NonNegative`. */
  function Deduct(t: Team, bp: Blueprint): (t': Team)
    ensures NonNegative(t') <==> CanAfford(t, bp)
    ensures Total(t') == Total(t) - TotalCost(bp)
    ensures t'.id == t.id && t'.name == t.name
  {
    t.(electricity := t.electricity - bp.costElectricity,
       bricks := t.bricks - bp.costBricks,
       chips := t.chips - bp.costChips)
  }

  /** Paying for a blueprint and then being credited its cost restores the team. */
  lemma DeductThenRefund(t: Team, bp: Blueprint)
    ensures Credit(Deduct(t, bp), Reward(bp.costElectricity, bp.costBricks, bp.costChips)) == t
  {
  }

  /** The placeholder shown before the database confirms a build; `stamp`
      and `now` are the clock readings used for its temporary id and date. */
  function OptimisticBuilding(bp: Blueprint, stamp: string, now: string): (b: BuiltBuilding)
    ensures b.blueprintId == bp.id && b.blueprint == Some(bp) && b.isOptimistic
    ensures |b.id| >= 5 && b.id[..5] == "temp-"
  {
    BuiltBuilding("temp-" + stamp, bp.id, now, Some(bp), true)
  }

  /** The level displayed next to the team name. */
  function Level(buildings: seq<BuiltBuilding>): (level: nat)
    ensures level >= 1
    ensures level == 1 <==> buildings == []
  {
    |buildings| + 1
  }

  /** Each building added raises the level by exactly one. */
  lemma LevelAfterBuild(buildings: seq<BuiltBuilding>, b: BuiltBuilding)
    ensures Level(buildings + [b]) == Level(buildings) + 1
  {
  }

  // ---------------------------------------------------------------------
  // Building assets
  // ---------------------------------------------------------------------

  const BUILDING_ASSETS: map<string, Asset> := map[
    "營火" := Asset("🔥", "from-orange-400 to-red-600", "scale-75"),
    "小木屋" := Asset("🛖", "from-yellow-600 to-amber-800", "scale-90"),
    "販賣機" := Asset("🥤", "from-blue-400 to-red-500", "scale-75"),
    "漢堡店" := Asset("🍔", "from-orange-300 to-yellow-500", "scale-90"),
    "風力發電機" := Asset("🌬️", "from-cyan-300 to-blue-500", "scale-125"),
    "圖書館" := Asset("🏛️", "from-slate-300 to-slate-500", "scale-110"),
    "學校" := Asset("🏫", "from-yellow-200 to-orange-300", "scale-110"),
    "廣播塔" := Asset("🗼", "from-red-500 to-orange-600", "scale-150"),
    "電影院" := Asset("🍿", "from-purple-500 to-pink-500", "scale-100"),
    "國際機場" := Asset("✈️", "from-blue-200 to-sky-500", "scale-125"),
    "摩天大樓" := Asset("🏙️", "from-indigo-300 to-purple-500", "scale-150"),
    "太空火箭" := Asset("🚀", "from-gray-200 to-orange-500", "scale-150"),
    "人造衛星" := Asset("🛰️", "from-blue-900 to-purple-900", "scale-75"),
    "自由女神像" := Asset("🗽", "from-emerald-300 to-teal-600", "scale-150"),
    "外星傳送門" := Asset("🌀", "from-fuchsia-500 to-purple-600", "scale-150")
  ]

  /** The fallback look for a name missing from the table. */
  const DEFAULT_ASSET: Asset := Asset("📦", "from-gray-400 to-gray-600", "scale-100")

  /** Table lookup with the default fallback (every table entry is truthy). */
  function AssetFor(name: string): (a: Asset)
    ensures a == DEFAULT_ASSET || a in BUILDING_ASSETS.Values
  {
    if name in BUILDING_ASSETS then BUILDING_ASSETS[name] else DEFAULT_ASSET
  }

  /** The default look appears exactly for names missing from the table:
      no named building is drawn like the fallback box. */
  lemma DefaultOnlyForUnknownNames(name: string)
    ensures AssetFor(name) == DEFAULT_ASSET <==> name !in BUILDING_ASSETS
    ensures name in BUILDING_ASSETS ==> AssetFor(name) == BUILDING_ASSETS[name]
  {
    if name in BUILDING_ASSETS {
      assert forall n | n in BUILDING_ASSETS :: BUILDING_ASSETS[n].emoji != DEFAULT_ASSET.emoji;
    }
  }

  /** The look of a built building: the name of its joined blueprint, or
      the empty name when the join is missing. */
  function BuildingAsset(b: BuiltBuilding): (a: Asset)
    ensures b.blueprint.None? ==> a == DEFAULT_ASSET
  {
    AssetFor(if b.blueprint.Some? then b.blueprint.value.name else "")
  }

  /** The look of a blueprint in the shop. */
  function ShopAsset(bp: Blueprint): (a: Asset)
    ensures bp.name in BUILDING_ASSETS ==> a == BUILDING_ASSETS[bp.name]
    ensures bp.name !in BUILDING_ASSETS ==> a == DEFAULT_ASSET
  {
    AssetFor(bp.name)
  }

  /** An optimistic building is drawn exactly as its blueprint in the shop. */
  lemma OptimisticLooksLikeShop(bp: Blueprint, stamp: string, now: string)
    ensures BuildingAsset(OptimisticBuilding(bp, stamp, now)) == ShopAsset(bp)
  {
  }

  // ---------------------------------------------------------------------
  // The page state and its handlers
  // ---------------------------------------------------------------------

  /** What a call of the build handler did. `reload` is set when a remote
      write threw, in which case the page reloads from the database. */
  datatype BuildOutcome = NoTeam | Unaffordable | Declined | Built(reload: bool)

  class PlayerPage {
    var team: Option<Team>
    var blueprints: seq<Blueprint>
    var myBuildings: seq<BuiltBuilding>
    var activeQuestion: Option<Question>
    var selectedOption: Option<int>
    var showResult: bool
    var loading: bool

    /** The intended invariant: the team on screen has no negative resource. */
    ghost predicate Solvent()
      reads this
    {
      team.Some? ==> NonNegative(team.value)
    }

    constructor ()
      ensures team == None && blueprints == [] && myBuildings == []
      ensures activeQuestion == None && selectedOption == None && !showResult && !loading
    {
      team, blueprints, myBuildings := None, [], [];
      activeQuestion, selectedOption, showResult, loading := None, None, false, false;
    }

    /** The initial load. Each argument is a query result, `None` when the
        query returned no data; the buildings are only queried when a team
        was found. */
    method InitData(teamData: Option<Team>, bpData: Option<seq<Blueprint>>, builtData: Option<seq<BuiltBuilding>>)
      modifies this
      ensures team == if teamData.Some? then teamData else old(team)
      ensures blueprints == if bpData.Some? then bpData.value else old(blueprints)
      ensures myBuildings == if teamData.Some? && builtData.Some? then builtData.value else old(myBuildings)
      ensures activeQuestion == old(activeQuestion) && selectedOption == old(selectedOption)
      ensures showResult == old(showResult) && loading == old(loading)
    {
      if teamData.Some? {
        team := teamData;
      }
      if bpData.Some? {
        blueprints := bpData.value;
      }
      if teamData.Some? && builtData.Some? {
        myBuildings := builtData.value;
      }
    }

    /** The realtime handler: a pushed row replaces the whole team. */
    method OnTeamUpdate(row: Team)
      modifies this
      ensures team == Some(row)
      ensures blueprints == old(blueprints) && myBuildings == old(myBuildings)
      ensures activeQuestion == old(activeQuestion) && selectedOption == old(selectedOption)
      ensures showResult == old(showResult) && loading == old(loading)
    {
      team := Some(row);
    }

    /** Opens a question of the requested category. `fetched` is the result
        of the query filtered on that category (`None` on error), so every
        row it holds has the category; `pick` is the random index drawn
        from it. */
    method StartTraining(category: string, fetched: Option<seq<Question>>, pick: nat)
      requires fetched.Some? ==> forall q :: q in fetched.value ==> q.category == category
      requires fetched.Some? && |fetched.value| > 0 ==> pick < |fetched.value|
      modifies this
      ensures fetched.None? || |fetched.value| == 0 ==>
        activeQuestion == old(activeQuestion) && selectedOption == old(selectedOption) &&
        showResult == old(showResult)
      ensures fetched.Some? && |fetched.value| > 0 ==>
        activeQuestion == Some(fetched.value[pick]) && selectedOption == None && !showResult
      ensures fetched.Some? && |fetched.value| > 0 ==> activeQuestion.value.category == category
      ensures !loading
      ensures team == old(team) && blueprints == old(blueprints) && myBuildings == old(myBuildings)
    {
      loading := true;
      if fetched.None? || |fetched.value| == 0 {
        loading := false;
        return;
      }
      var q := fetched.value[pick];
      selectedOption := None;
      showResult := false;
      activeQuestion := Some(q);
      loading := false;
    }

    /** An option button of the open question. */
    method SelectOption(index: int)
      modifies this
      ensures selectedOption == Some(index)
      ensures team == old(team) && blueprints == old(blueprints) && myBuildings == old(myBuildings)
      ensures activeQuestion == old(activeQuestion) && showResult == old(showResult) && loading == old(loading)
    {
      selectedOption := Some(index);
    }

    /** The close button of the question dialog. */
    method CloseQuestion()
      modifies this
      ensures activeQuestion == None
      ensures team == old(team) && blueprints == old(blueprints) && myBuildings == old(myBuildings)
      ensures selectedOption == old(selectedOption) && showResult == old(showResult) && loading == old(loading)
    {
      activeQuestion := None;
    }

    /** Grades the selected option. Without a team, a question or a
        selection nothing happens; otherwise the result is shown and a
        correct answer credits the reward of the question's category. */
    method SubmitAnswer()
      modifies this
      ensures old(team).None? || old(activeQuestion).None? || old(selectedOption).None? ==> unchanged(this)
      ensures old(team).Some? && old(activeQuestion).Some? && old(selectedOption).Some? ==>
        showResult &&
        team == Some(if old(selectedOption).value == old(activeQuestion).value.answer
                     then Credit(old(team).value, RewardFor(old(activeQuestion).value.category))
                     else old(team).value)
      ensures blueprints == old(blueprints) && myBuildings == old(myBuildings)
      ensures activeQuestion == old(activeQuestion) && selectedOption == old(selectedOption)
      ensures loading == old(loading)
      ensures old(Solvent()) ==> Solvent()
    {
      if team.None? || activeQuestion.None? || selectedOption.None? {
        return;
      }
      showResult := true;
      var q := activeQuestion.value;
      if selectedOption.value == q.answer {
        var reward := RewardFor(q.category);
        var newTeam := Credit(team.value, reward);
        team := Some(newTeam);
      }
    }

    /** The build handler. Rejected when there is no team or some resource
        is below its cost; `confirmed` is the player's answer to the
        confirmation dialog. A confirmed build deducts the cost, appends
        one optimistic building and issues the two remote writes, of which
        `remoteThrew` tells whether one threw. */
    method HandleBuild(bp: Blueprint, confirmed: bool, stamp: string, now: string, remoteThrew: bool)
      returns (outcome: BuildOutcome)
      modifies this
      ensures old(team).None? ==> outcome == NoTeam && unchanged(this)
      ensures old(team).Some? && Rejected(old(team).value, bp) ==> outcome == Unaffordable && unchanged(this)
      ensures old(team).Some? && !Rejected(old(team).value, bp) && !confirmed ==> outcome == Declined && unchanged(this)
      ensures old(team).Some? && !Rejected(old(team).value, bp) && confirmed ==>
        outcome == Built(remoteThrew) &&
        team == Some(Deduct(old(team).value, bp)) &&
        myBuildings == old(myBuildings) + [OptimisticBuilding(bp, stamp, now)] &&
        Level(myBuildings) == Level(old(myBuildings)) + 1 &&
        !loading
      ensures blueprints == old(blueprints) && activeQuestion == old(activeQuestion)
      ensures selectedOption == old(selectedOption) && showResult == old(showResult)
      ensures old(Solvent()) ==> Solvent()
    {
      if team.None? {
        return NoTeam;
      }
      var t := team.value;
      if Rejected(t, bp) {
        return Unaffordable;
      }
      if !confirmed {
        return Declined;
      }
      loading := true;
      CanAffordIffNotRejected(t, bp);
      team := Some(Deduct(t, bp));
      myBuildings := myBuildings + [OptimisticBuilding(bp, stamp, now)];
      LevelAfterBuild(old(myBuildings), OptimisticBuilding(bp, stamp, now));
      loading := false;
      outcome := Built(remoteThrew);
    }
  }
}
