/** The card asset of the refactored card system and what activating it asks
    of the rest of the game.  Activation has no effect of its own: it issues,
    in order, requests to the player (mana), the projectile manager, the
    movement manager and the particle spawner.  The model returns that ordered
    list of requests. */
module Cards {
  import opened Wrappers

  datatype CardType = Attack | Heal | Dash

  /** A prefab asset; `hasProjectile` says whether it carries a Projectile
      component, which is what TryGetComponent looks for. */
  datatype Prefab = Prefab(assetId: nat, hasProjectile: bool)

  /** A card asset.  `assetId` is the identity of the ScriptableObject: the
      same asset may sit in a deck several times, two assets with equal
      settings are still two cards. */
  datatype Card = Card(
    assetId: nat,
    cardName: string,
    cardType: CardType,
    cardCost: int,
    projectilePrefab: Option<Prefab>,
    particleEffectPrefab: Option<Prefab>,
    spawnProjectile: bool,
    spawnParticleEffect: bool,
    healAmount: int,
    dashDistance: real,
    dashDuration: real)

  // Inspector defaults of a freshly created card asset.
  const DefaultSpawnProjectile := true
  const DefaultSpawnParticleEffect := false
  const DefaultHealAmount := 2
  const DefaultDashDistance := 3.0
  const DefaultDashDuration := 0.2

  /** A card asset as the editor creates it, with every optional setting at
      its default. */
  function NewCard(assetId: nat, cardName: string, cardType: CardType, cardCost: int): Card
  {
    Card(assetId, cardName, cardType, cardCost, None, None,
         DefaultSpawnProjectile, DefaultSpawnParticleEffect,
         DefaultHealAmount, DefaultDashDistance, DefaultDashDuration)
  }

  /** The movement manager as the dash sees it: only the snapped facing
      angle (the sine/cosine direction built from it is not modelled). */
  datatype Movement = Movement(roundedAngle: real)

  /** What the player side offers to an activating card. */
  datatype Player = Player(movementManager: Option<Movement>)

  /** A request a card issues while activating or on hitting a target. */
  datatype EffectRequest =
    | ChangeMana(amount: int, includeRedSlider: bool)
    | ShootProjectile(projectile: Prefab)
    | Sprint(facingAngle: real, distance: real, duration: real)
    | SpawnParticle(prefab: Prefab)

  function AttackEffect(card: Card): seq<EffectRequest>
  {
    if !card.spawnProjectile || card.projectilePrefab.None? then []
    else if card.projectilePrefab.value.hasProjectile then [ShootProjectile(card.projectilePrefab.value)]
    else []
  }

  function HealEffect(card: Card): seq<EffectRequest>
  {
    [ChangeMana(card.healAmount, true)]
  }

  function DashEffect(card: Card, player: Player): seq<EffectRequest>
  {
    match player.movementManager
    case None => []
    case Some(m) => [Sprint(m.roundedAngle, card.dashDistance, card.dashDuration)]
  }

  /** The switch on the card type: one branch per type. */
  function TypeEffect(card: Card, player: Player): seq<EffectRequest>
  {
    match card.cardType
    case Attack => AttackEffect(card)
    case Heal => HealEffect(card)
    case Dash => DashEffect(card, player)
  }

  function ParticleEffect(card: Card): seq<EffectRequest>
  {
    if card.spawnParticleEffect && card.particleEffectPrefab.Some? then [SpawnParticle(card.particleEffectPrefab.value)]
    else []
  }

  /** Card.Activate: pay the cost (green slider only), run the branch of the
      card's type, then spawn the particle effect if enabled. */
  function Activate(card: Card, player: Player): seq<EffectRequest>
  {
    [ChangeMana(-card.cardCost, false)] + TypeEffect(card, player) + ParticleEffect(card)
  }

  /** Card.OnHitTarget: an attack card refunds its cost, on both sliders. */
  function OnHitTarget(card: Card): seq<EffectRequest>
  {
    if card.cardType == Attack then [ChangeMana(card.cardCost, true)] else []
  }

  /** The type branch a request can only come from. */
  function BranchOf(e: EffectRequest): Option<CardType>
  {
    match e
    case ShootProjectile(_) => Some(Attack)
    case ChangeMana(_, _) => Some(Heal)
    case Sprint(_, _, _) => Some(Dash)
    case SpawnParticle(_) => None
  }

  /** The total change a list of requests asks of the green slider, which
      every ChangeMana request moves. */
  function NetMana(effects: seq<EffectRequest>): int
  {
    if effects == [] then 0
    else (if effects[0].ChangeMana? then effects[0].amount else 0) + NetMana(effects[1..])
  }

  /** The total change a list of requests asks of the red slider, which only
      the requests with includeRedSlider move. */
  function NetRed(effects: seq<EffectRequest>): int
  {
    if effects == [] then 0
    else (if effects[0].ChangeMana? && effects[0].includeRedSlider then effects[0].amount else 0) + NetRed(effects[1..])
  }

  lemma {:induction false} NetManaAppend(a: seq<EffectRequest>, b: seq<EffectRequest>)
    ensures NetMana(a + b) == NetMana(a) + NetMana(b)
  {
    if a == [] {
      assert a + b == b;
    } else {
      assert (a + b)[1..] == a[1..] + b;
      NetManaAppend(a[1..], b);
    }
  }

  lemma {:induction false} NetRedAppend(a: seq<EffectRequest>, b: seq<EffectRequest>)
    ensures NetRed(a + b) == NetRed(a) + NetRed(b)
  {
    if a == [] {
      assert a + b == b;
    } else {
      assert (a + b)[1..] == a[1..] + b;
      NetRedAppend(a[1..], b);
    }
  }

  /** The cost is charged first, on the green slider only, before anything of
      the card's type. */
  lemma ActivateChargesCostFirst(card: Card, player: Player)
    ensures |Activate(card, player)| >= 1
    ensures Activate(card, player)[0] == ChangeMana(-card.cardCost, false)
  {
  }

  /** Apart from the cost and the particle, every request comes from the
      branch of the card's own type. */
  lemma ActivateRunsOnlyItsTypeBranch(card: Card, player: Player)
    ensures forall e :: e in Activate(card, player)[1..] ==> e.SpawnParticle? || BranchOf(e) == Some(card.cardType)
  {
    var r := Activate(card, player);
    assert r[1..] == TypeEffect(card, player) + ParticleEffect(card);
  }

  /** Net mana of one activation: the cost, plus the heal amount for a heal
      card (whose refill also reaches the red slider). */
  lemma ActivateNetMana(card: Card, player: Player)
    ensures NetMana(Activate(card, player)) ==
            -card.cardCost + (if card.cardType == Heal then card.healAmount else 0)
  {
    NetManaAppend([ChangeMana(-card.cardCost, false)], TypeEffect(card, player));
    NetManaAppend([ChangeMana(-card.cardCost, false)] + TypeEffect(card, player), ParticleEffect(card));
    assert NetMana([ChangeMana(-card.cardCost, false)]) == -card.cardCost;
    match card.cardType
    case Heal => assert NetMana(HealEffect(card)) == card.healAmount;
    case Attack =>
    case Dash =>
  }

  /** Net change of the red slider in one activation: the cost is not
      charged there, so only a heal card's refill reaches it. */
  lemma ActivateNetRed(card: Card, player: Player)
    ensures NetRed(Activate(card, player)) == (if card.cardType == Heal then card.healAmount else 0)
  {
    NetRedAppend([ChangeMana(-card.cardCost, false)], TypeEffect(card, player));
    NetRedAppend([ChangeMana(-card.cardCost, false)] + TypeEffect(card, player), ParticleEffect(card));
    assert NetRed([ChangeMana(-card.cardCost, false)]) == 0;
    match card.cardType
    case Heal => assert NetRed(HealEffect(card)) == card.healAmount;
    case Attack =>
    case Dash =>
  }

  /** A heal card asks for -cost on green, then +healAmount on both sliders. */
  lemma HealActivation(card: Card, player: Player)
    requires card.cardType == Heal
    ensures |Activate(card, player)| >= 2
    ensures Activate(card, player)[..2] == [ChangeMana(-card.cardCost, false), ChangeMana(card.healAmount, true)]
  {
  }

  /** A projectile is requested exactly when the card is an attack card with
      spawning on and a prefab that carries a Projectile component. */
  lemma ActivateShootsIff(card: Card, player: Player)
    ensures (exists e :: e in Activate(card, player) && e.ShootProjectile?) <==>
            (card.cardType == Attack && card.spawnProjectile && card.projectilePrefab.Some?
             && card.projectilePrefab.value.hasProjectile)
    ensures forall e :: e in Activate(card, player) && e.ShootProjectile? ==> Some(e.projectile) == card.projectilePrefab
  {
    var r := Activate(card, player);
    if card.cardType == Attack && card.spawnProjectile && card.projectilePrefab.Some?
       && card.projectilePrefab.value.hasProjectile {
      assert r[1] == ShootProjectile(card.projectilePrefab.value);
    }
  }

  /** A sprint is requested exactly when the card is a dash card and a
      movement manager exists, and it carries the card's distance and
      duration. */
  lemma ActivateSprintsIff(card: Card, player: Player)
    ensures (exists e :: e in Activate(card, player) && e.Sprint?) <==>
            (card.cardType == Dash && player.movementManager.Some?)
    ensures forall e :: e in Activate(card, player) && e.Sprint? ==>
              e == Sprint(player.movementManager.value.roundedAngle, card.dashDistance, card.dashDuration)
  {
    var r := Activate(card, player);
    if card.cardType == Dash && player.movementManager.Some? {
      assert r[1].Sprint?;
    }
  }

  /** The particle request is issued only if enabled with a prefab present,
      and then it is the last request. */
  lemma ActivateParticleLast(card: Card, player: Player)
    ensures (exists e :: e in Activate(card, player) && e.SpawnParticle?) <==>
            (card.spawnParticleEffect && card.particleEffectPrefab.Some?)
    ensures card.spawnParticleEffect && card.particleEffectPrefab.Some? ==>
              Activate(card, player)[|Activate(card, player)| - 1] == SpawnParticle(card.particleEffectPrefab.value)
  {
    var r := Activate(card, player);
    assert forall e :: e in TypeEffect(card, player) ==> !e.SpawnParticle?;
    if card.spawnParticleEffect && card.particleEffectPrefab.Some? {
      assert r[|r| - 1] == SpawnParticle(card.particleEffectPrefab.value);
    }
  }

  /** Hitting a target refunds an attack card's cost with one request on
      both sliders and does nothing for other types.  Over an attack that
      hits, the requested green changes sum to 0 and the requested red
      changes sum to the cost.  These are requested amounts: the bar clamps
      each request, so the slider values themselves need not come back. */
  lemma OnHitTargetRefundsAttack(card: Card, player: Player)
    ensures card.cardType != Attack ==> OnHitTarget(card) == []
    ensures card.cardType == Attack ==> OnHitTarget(card) == [ChangeMana(card.cardCost, true)]
    ensures card.cardType == Attack ==>
              NetMana(Activate(card, player) + OnHitTarget(card)) == 0 &&
              NetRed(Activate(card, player) + OnHitTarget(card)) == card.cardCost
  {
    ActivateNetMana(card, player);
    ActivateNetRed(card, player);
    NetManaAppend(Activate(card, player), OnHitTarget(card));
    NetRedAppend(Activate(card, player), OnHitTarget(card));
    if card.cardType == Attack {
      assert NetMana(OnHitTarget(card)) == card.cardCost;
      assert NetRed(OnHitTarget(card)) == card.cardCost;
    }
  }
}
