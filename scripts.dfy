/**
  The `InteractNearest(autoloot)` command (src/scripts.rs): one pass over the
  game's list of visible objects that sorts every eligible entity into one of
  four priority buckets, keeps the nearest entity of each bucket, and then
  interacts with the best candidate of the highest-priority bucket that holds
  one.

  The game's memory is replaced by a snapshot (`World`): what the game's
  guid lookup resolves, the values read through each resolved pointer, and the
  chain of list links with the values read through each link. The calls the
  command makes into the game (`set_target`, `interact_unit`,
  `interact_object`) are recorded as a trace of `Action`s.

  Distances are kept SQUARED (see Game.C3Vector.SquaredDistanceTo): the range
  5.0 becomes 25.0 and the sentinel 1000.0 becomes 1000000.0, and
  Game.SquareOrder shows that every comparison decides the same.
*/
module Scripts {
  import opened Wrappers
  import opened Game

  // ---------------------------------------------------------------------------
  // Constants
  // ---------------------------------------------------------------------------

  /** The usage message raised as a Lua error (the source adds a NUL terminator for C). */
  const ERR_USAGE: string := "Usage: InteractNearest(autoloot)"

  /** Maximum interaction distance in yards. */
  const MAX_DISTANCE: real := 5.0

  /** The "infinite" distance a fresh candidate starts from. */
  const INITIAL_DISTANCE: real := 1000.0

  const MAX_DISTANCE_SQ: real := MAX_DISTANCE * MAX_DISTANCE
  const INITIAL_DISTANCE_SQ: real := INITIAL_DISTANCE * INITIAL_DISTANCE

  /**
    The constants as the model uses them: the squared range and sentinel, the
    sentinel lying beyond the range (so a fresh candidate takes the first
    entity in range), and the usage message naming the command.
  */
  lemma ConstantValues()
    ensures MAX_DISTANCE_SQ == 25.0 && INITIAL_DISTANCE_SQ == 1000000.0
    ensures 0.0 < MAX_DISTANCE < INITIAL_DISTANCE && MAX_DISTANCE_SQ < INITIAL_DISTANCE_SQ
    ensures |ERR_USAGE| == 32 && ERR_USAGE[..15] == "Usage: Interact"
  {
    SquareOrder(MAX_DISTANCE, INITIAL_DISTANCE);
  }

  // ---------------------------------------------------------------------------
  // World snapshot
  // ---------------------------------------------------------------------------

  type NonZeroU32 = p: u32 | p != 0 witness 1

  /**
    What the game's guid lookup (`get_object_pointer`) resolves to: the
    non-null object pointer, and the values read through it.
  */
  datatype ObjectData = ObjectData(
    pointer: NonZeroU32,
    rawType: u32,          // the type word, normalised by Game.FromRaw
    summonedBy: u64,       // the summoned-by guid
    gameObjectId: u32,     // the game-object entry id
    unitPosition: C3Vector // the unit position (read for the player)
  )

  /**
    One link of the visible-object list, and the values read through that
    link (`current`): its guid, the unit and game-object positions, the
    health and the two corpse flags (bit 0x1 of the dynamic flags, bit
    0x0400_0000 of the unit flags).
  */
  datatype ListEntry = ListEntry(
    link: u32,
    guid: u64,
    unitPosition: C3Vector,
    objectPosition: C3Vector,
    health: i32,
    lootable: bool,
    skinnable: bool
  )

  /**
    `list[0].link` is the first link of the list and `list[k + 1].link` is the
    link read as the successor of `list[k].link`.
  */
  datatype World = World(
    inWorld: bool,
    playerGuid: u64,
    objects: map<u64, ObjectData>,
    list: seq<ListEntry>
  )

  /** `get_object_pointer`: the guid lookup, which fails for objects that are gone. */
  function GetObjectPointer(objects: map<u64, ObjectData>, guid: u64): Option<ObjectData>
  {
    if guid in objects then Some(objects[guid]) else Option.None
  }

  /** A link ends the list when it is null or has its low bit set. */
  predicate IsTerminal(link: u32)
  {
    link == 0 || link % 2 == 1
  }

  /** The snapshot holds the end of the list. */
  predicate Terminated(list: seq<ListEntry>)
  {
    exists k :: 0 <= k < |list| && IsTerminal(list[k].link)
  }

  /** The position of the first link that ends the list. */
  function FirstTerminal(list: seq<ListEntry>): (n: nat)
    requires Terminated(list)
    ensures n < |list| && IsTerminal(list[n].link)
    ensures forall k :: 0 <= k < n ==> !IsTerminal(list[k].link)
  {
    if IsTerminal(list[0].link) then 0
    else
      assert Terminated(list[1..]) by {
        var k :| 0 <= k < |list| && IsTerminal(list[k].link);
        assert list[1..][k - 1] == list[k];
      }
      1 + FirstTerminal(list[1..])
  }

  /** The links the pass visits: those before the first terminal link, in list order. */
  function Visited(list: seq<ListEntry>): (es: seq<ListEntry>)
    requires Terminated(list)
    ensures |es| < |list| && es == list[..|es|]
    ensures forall k :: 0 <= k < |es| ==> !IsTerminal(es[k].link)
    ensures IsTerminal(list[|es|].link)
  {
    list[..FirstTerminal(list)]
  }

  // ---------------------------------------------------------------------------
  // Candidates
  // ---------------------------------------------------------------------------

  /** The value a `Candidate` holds; `distance` is squared. */
  datatype CandidateState = CandidateState(guid: u64, pointer: u32, objType: ObjectType, distance: real)
  {
    /** `Candidate::is_valid`: the candidate holds an entity, i.e. its type is not the default one. */
    predicate IsValid()
      ensures IsValid() <==> objType.Discriminant() != DefaultObjectType().Discriminant()
    {
      objType != ObjectType.None
    }
  }

  /** `Candidate::new`. */
  function NewCandidateState(): (c: CandidateState)
    ensures !c.IsValid()
    ensures c.distance > MAX_DISTANCE_SQ
  {
    CandidateState(0, 0, ObjectType.None, INITIAL_DISTANCE_SQ)
  }

  function Min(a: real, b: real): real
  {
    if a <= b then a else b
  }

  /** The effect of `Candidate::update` offering `o` to a candidate holding `c`. */
  function Offer(c: CandidateState, o: CandidateState): (r: CandidateState)
    ensures r == c || r == o
    ensures r.distance == Min(c.distance, o.distance)
    ensures c.distance <= o.distance ==> r == c
  {
    if o.distance < c.distance then o else c
  }

  /** The best entity found so far for one priority bucket. */
  class Candidate {
    var guid: u64
    var pointer: u32
    var objType: ObjectType
    var distance: real

    function State(): CandidateState
      reads this
    {
      CandidateState(guid, pointer, objType, distance)
    }

    constructor ()
      ensures State() == NewCandidateState()
    {
      guid := 0;
      pointer := 0;
      objType := ObjectType.None;
      distance := INITIAL_DISTANCE_SQ;
    }

    /** Replaces all four fields when the offered entity is strictly closer; ties keep the incumbent. */
    method Update(guid: u64, pointer: u32, objType: ObjectType, distance: real)
      modifies this
      ensures distance < old(this.distance) ==> State() == CandidateState(guid, pointer, objType, distance)
      ensures distance >= old(this.distance) ==> State() == old(State())
      ensures State() == Offer(old(State()), CandidateState(guid, pointer, objType, distance))
    {
      if distance < this.distance {
        this.guid := guid;
        this.pointer := pointer;
        this.objType := objType;
        this.distance := distance;
      }
    }
  }

  /** The candidate after offering it each of `os` in turn, starting from `c`. */
  function OfferAll(c: CandidateState, os: seq<CandidateState>): CandidateState
  {
    if os == [] then c else Offer(OfferAll(c, os[..|os| - 1]), os[|os| - 1])
  }

  /**
    After any sequence of updates a candidate holds the minimum of its initial
    distance and every offered distance, and the entity it holds is either the
    initial one (nothing offered was strictly closer) or the FIRST offered
    entity at that minimum.
  */
  lemma {:induction false} OfferAllMinimum(c: CandidateState, os: seq<CandidateState>)
    ensures OfferAll(c, os).distance <= c.distance
    ensures forall j :: 0 <= j < |os| ==> OfferAll(c, os).distance <= os[j].distance
    ensures || OfferAll(c, os) == c
            || exists j :: 0 <= j < |os| && OfferAll(c, os) == os[j] && os[j].distance < c.distance &&
                 forall i :: 0 <= i < j ==> os[i].distance > os[j].distance
  {
    if os != [] {
      var init := os[..|os| - 1];
      OfferAllMinimum(c, init);
      var prev := OfferAll(c, init);
      var last := |os| - 1;
      assert forall j :: 0 <= j < last ==> os[j] == init[j];
      if os[last].distance < prev.distance {
        assert OfferAll(c, os) == os[last];
      } else {
        assert OfferAll(c, os) == prev;
        if prev != c {
          var j :| 0 <= j < |init| && prev == init[j] && init[j].distance < c.distance &&
                   forall i :: 0 <= i < j ==> init[i].distance > init[j].distance;
          assert OfferAll(c, os) == os[j];
        }
      }
    }
  }

  /** Offering more entities never increases the stored distance. */
  lemma {:induction false} OfferAllNonIncreasing(c: CandidateState, os: seq<CandidateState>, i: nat, j: nat)
    requires i <= j <= |os|
    ensures OfferAll(c, os[..j]).distance <= OfferAll(c, os[..i]).distance
  {
    if i < j {
      OfferAllNonIncreasing(c, os, i, j - 1);
      assert os[..j][..j - 1] == os[..j - 1];
    }
  }

  /** A fresh candidate takes the first entity offered within range. */
  lemma FreshCandidateTakesFirstInRange(o: CandidateState)
    requires o.distance <= MAX_DISTANCE_SQ
    ensures Offer(NewCandidateState(), o) == o
  {
  }

  // ---------------------------------------------------------------------------
  // Priority buckets
  // ---------------------------------------------------------------------------

  /** The four priority buckets, highest priority first. */
  datatype Bucket = Lootable | GameObjectBucket | Skinnable | Alive
  {
    /** Position in the priority order: lootable corpse, game object, skinnable corpse, living unit. */
    function Rank(): nat
    {
      match this
      case Lootable => 0
      case GameObjectBucket => 1
      case Skinnable => 2
      case Alive => 3
    }
  }

  /** The four candidates of one pass. */
  datatype Buckets = Buckets(lootable: CandidateState, gameobject: CandidateState, skinnable: CandidateState, alive: CandidateState)
  {
    function Get(k: Bucket): CandidateState
    {
      match k
      case Lootable => lootable
      case GameObjectBucket => gameobject
      case Skinnable => skinnable
      case Alive => alive
    }

    function Put(k: Bucket, c: CandidateState): (b: Buckets)
      ensures b.Get(k) == c
      ensures forall k' :: k' != k ==> b.Get(k') == Get(k')
    {
      match k
      case Lootable => this.(lootable := c)
      case GameObjectBucket => this.(gameobject := c)
      case Skinnable => this.(skinnable := c)
      case Alive => this.(alive := c)
    }
  }

  function NewBuckets(): Buckets
  {
    var c := NewCandidateState();
    Buckets(c, c, c, c)
  }

  /**
    The final priority chain: the first valid candidate in priority order,
    whatever the distances held by the other buckets.
  */
  function Select(b: Buckets): (r: Option<CandidateState>)
    ensures r.Some? ==> r.value.IsValid()
  {
    if b.lootable.IsValid() then Some(b.lootable)
    else if b.gameobject.IsValid() then Some(b.gameobject)
    else if b.skinnable.IsValid() then Some(b.skinnable)
    else if b.alive.IsValid() then Some(b.alive)
    else Option.None
  }

  /**
    The priority chain picks the valid candidate of the highest-priority
    bucket, and picks nothing exactly when all four candidates are invalid.
  */
  lemma {:induction false} SelectHighestPriority(b: Buckets)
    ensures Select(b).None? <==> forall k: Bucket :: !b.Get(k).IsValid()
    ensures Select(b).Some? ==>
              exists k: Bucket :: Select(b).value == b.Get(k) && b.Get(k).IsValid() &&
                forall k': Bucket :: k'.Rank() < k.Rank() ==> !b.Get(k').IsValid()
  {
    if Select(b).None? {
      forall k: Bucket
        ensures !b.Get(k).IsValid()
      {
        match k
        case Lootable =>
        case GameObjectBucket =>
        case Skinnable =>
        case Alive =>
      }
    } else {
      var k: Bucket :=
        if b.lootable.IsValid() then Lootable
        else if b.gameobject.IsValid() then GameObjectBucket
        else if b.skinnable.IsValid() then Skinnable
        else Alive;
      forall k': Bucket | k'.Rank() < k.Rank()
        ensures !b.Get(k').IsValid()
      {
        match k'
        case Lootable =>
        case GameObjectBucket =>
        case Skinnable =>
        case Alive =>
      }
      assert Select(b).value == b.Get(k);
    }
  }

  // ---------------------------------------------------------------------------
  // Classification of one entity
  // ---------------------------------------------------------------------------

  /**
    `is_player_summoned`: the object was summoned by a player. A zero
    summoned-by guid, or one that no longer resolves, counts as not summoned.
  */
  function IsPlayerSummoned(objects: map<u64, ObjectData>, obj: ObjectData): (r: bool)
    ensures r <==> obj.summonedBy != 0 && obj.summonedBy in objects &&
                   FromRaw(objects[obj.summonedBy].rawType) == Player
  {
    if obj.summonedBy == 0 then false
    else
      match GetObjectPointer(objects, obj.summonedBy)
      case None => false
      case Some(summoner) => FromRaw(summoner.rawType) == Player
  }

  /**
    The bucket `process_unit` updates for a unit in range: a dead unit (health
    0) is a lootable corpse if its loot flag is set, else a skinnable corpse if
    its skin flag is set; a unit with positive health is alive; a unit with
    negative health updates nothing.
  */
  function UnitBucket(e: ListEntry): (r: Option<Bucket>)
    ensures r == Some(Lootable) <==> e.health == 0 && e.lootable
    ensures r == Some(Skinnable) <==> e.health == 0 && !e.lootable && e.skinnable
    ensures r == Some(Alive) <==> e.health > 0
    ensures r != Some(GameObjectBucket)
    ensures r.None? <==> e.health < 0 || (e.health == 0 && !e.lootable && !e.skinnable)
  {
    if e.health == 0 then
      if e.lootable then Some(Lootable)
      else if e.skinnable then Some(Skinnable)
      else Option.None
    else if e.health > 0 then Some(Alive)
    else Option.None
  }

  /**
    What one visited list entry offers: the bucket it updates and the state it
    offers, or None when it updates no candidate. An entity updates nothing
    when its guid does not resolve, when a player summoned it, when it is
    neither a unit nor a game object, when it is beyond MAX_DISTANCE, when it
    is a game object on the blacklist, or when it is a unit that `UnitBucket`
    puts nowhere.
  */
  /**
    The checks of the loop body, all passed: the guid resolves, no player
    summoned the object, and it is either a unit within range that
    `UnitBucket` puts somewhere, or a game object within range that is not
    blacklisted.
  */
  predicate Eligible(objects: map<u64, ObjectData>, playerPos: C3Vector, e: ListEntry)
  {
    && e.guid in objects
    && !IsPlayerSummoned(objects, objects[e.guid])
    && var obj := objects[e.guid];
       || (FromRaw(obj.rawType) == Unit && playerPos.SquaredDistanceTo(e.unitPosition) <= MAX_DISTANCE_SQ
           && UnitBucket(e).Some?)
       || (FromRaw(obj.rawType) == GameObject && playerPos.SquaredDistanceTo(e.objectPosition) <= MAX_DISTANCE_SQ
           && !IsBlacklisted(obj.gameObjectId))
  }

  function Classify(objects: map<u64, ObjectData>, playerPos: C3Vector, e: ListEntry): (r: Option<(Bucket, CandidateState)>)
    ensures r.Some? <==> Eligible(objects, playerPos, e)
    ensures Eligible(objects, playerPos, e) && FromRaw(objects[e.guid].rawType) == Unit ==>
              r == Some((UnitBucket(e).value, CandidateState(e.guid, e.link, Unit, playerPos.SquaredDistanceTo(e.unitPosition))))
    ensures Eligible(objects, playerPos, e) && FromRaw(objects[e.guid].rawType) == GameObject ==>
              r == Some((GameObjectBucket, CandidateState(e.guid, objects[e.guid].pointer, GameObject, playerPos.SquaredDistanceTo(e.objectPosition))))
    ensures r.Some? ==> e.guid in objects && !IsPlayerSummoned(objects, objects[e.guid])
    ensures r.Some? ==> r.value.1.guid == e.guid && r.value.1.IsValid() && r.value.1.distance <= MAX_DISTANCE_SQ
    ensures r.Some? && r.value.0 == GameObjectBucket ==>
              var obj := objects[e.guid];
              && FromRaw(obj.rawType) == GameObject && r.value.1.objType == GameObject
              && !IsBlacklisted(obj.gameObjectId)
              && r.value.1.pointer == obj.pointer
              && r.value.1.distance == playerPos.SquaredDistanceTo(e.objectPosition)
    ensures r.Some? && r.value.0 != GameObjectBucket ==>
              && FromRaw(objects[e.guid].rawType) == Unit && r.value.1.objType == Unit
              && UnitBucket(e) == Some(r.value.0)
              && r.value.1.pointer == e.link
              && r.value.1.distance == playerPos.SquaredDistanceTo(e.unitPosition)
  {
    match GetObjectPointer(objects, e.guid)
    case None => Option.None
    case Some(obj) =>
      var objType := FromRaw(obj.rawType);
      if IsPlayerSummoned(objects, obj) || (objType != Unit && objType != GameObject) then Option.None
      else
        var objPos := if objType == Unit then e.unitPosition else e.objectPosition;
        var distance := playerPos.SquaredDistanceTo(objPos);
        if distance > MAX_DISTANCE_SQ then Option.None
        else if objType == Unit then
          match UnitBucket(e)
          case None => Option.None
          case Some(k) => Some((k, CandidateState(e.guid, e.link, objType, distance)))
        else if IsBlacklisted(obj.gameObjectId) then Option.None
        else Some((GameObjectBucket, CandidateState(e.guid, obj.pointer, objType, distance)))
  }

  /** `e` offers itself to bucket `k`. */
  predicate OffersTo(objects: map<u64, ObjectData>, playerPos: C3Vector, e: ListEntry, k: Bucket)
  {
    Classify(objects, playerPos, e).Some? && Classify(objects, playerPos, e).value.0 == k
  }

  /** The candidates after one loop iteration over `e`. */
  function Visit(objects: map<u64, ObjectData>, playerPos: C3Vector, b: Buckets, e: ListEntry): (r: Buckets)
    ensures forall k: Bucket :: !OffersTo(objects, playerPos, e, k) ==> r.Get(k) == b.Get(k)
    ensures forall k: Bucket :: OffersTo(objects, playerPos, e, k) ==>
              r.Get(k) == Offer(b.Get(k), Classify(objects, playerPos, e).value.1)
    ensures forall k: Bucket :: r.Get(k).distance <= b.Get(k).distance
  {
    match Classify(objects, playerPos, e)
    case None => b
    case Some((k, o)) => b.Put(k, Offer(b.Get(k), o))
  }

  /** The candidates after the loop has visited `es` in order. */
  function Scan(objects: map<u64, ObjectData>, playerPos: C3Vector, es: seq<ListEntry>): (r: Buckets)
    ensures forall k: Bucket :: r.Get(k) == NewCandidateState() || (r.Get(k).IsValid() && r.Get(k).distance <= MAX_DISTANCE_SQ)
  {
    if es == [] then NewBuckets()
    else Visit(objects, playerPos, Scan(objects, playerPos, es[..|es| - 1]), es[|es| - 1])
  }

  /** `find_best_candidate` without the autoloot argument: None also when the player does not resolve. */
  function FindBest(w: World): (r: Option<CandidateState>)
    requires Terminated(w.list)
    ensures w.playerGuid !in w.objects ==> r.None?
    ensures r.Some? ==> r.value.IsValid()
  {
    match GetObjectPointer(w.objects, w.playerGuid)
    case None => Option.None
    case Some(player) => Select(Scan(w.objects, player.unitPosition, Visited(w.list)))
  }

  // ---------------------------------------------------------------------------
  // Properties of the pass
  // ---------------------------------------------------------------------------

  /**
    Bucket `k` after the pass: it is still fresh when nothing visited offered
    itself to `k`; otherwise it holds the state offered by the FIRST entity
    that offered the minimum distance to `k`. In both cases no entity offered
    to `k` is nearer than what the bucket holds.
  */
  lemma {:induction false} ScanBucket(objects: map<u64, ObjectData>, playerPos: C3Vector, es: seq<ListEntry>, k: Bucket)
    ensures var c := Scan(objects, playerPos, es).Get(k);
      || (c == NewCandidateState() && forall j :: 0 <= j < |es| ==> !OffersTo(objects, playerPos, es[j], k))
      || exists j :: 0 <= j < |es| && Classify(objects, playerPos, es[j]) == Some((k, c)) &&
           forall i :: 0 <= i < j && OffersTo(objects, playerPos, es[i], k) ==>
             Classify(objects, playerPos, es[i]).value.1.distance > c.distance
    ensures forall j :: 0 <= j < |es| && OffersTo(objects, playerPos, es[j], k) ==>
              Scan(objects, playerPos, es).Get(k).distance <= Classify(objects, playerPos, es[j]).value.1.distance
  {
    if es != [] {
      var init := es[..|es| - 1];
      ScanBucket(objects, playerPos, init, k);
      ScanBucketStep(objects, playerPos, es, k);
    }
  }

  /** The inductive step of ScanBucket: visiting one more entity keeps both properties. */
  lemma ScanBucketStep(objects: map<u64, ObjectData>, playerPos: C3Vector, es: seq<ListEntry>, k: Bucket)
    requires es != []
    requires var init := es[..|es| - 1];
             var c := Scan(objects, playerPos, init).Get(k);
      && (|| (c == NewCandidateState() && forall j :: 0 <= j < |init| ==> !OffersTo(objects, playerPos, init[j], k))
          || exists j :: 0 <= j < |init| && Classify(objects, playerPos, init[j]) == Some((k, c)) &&
               forall i :: 0 <= i < j && OffersTo(objects, playerPos, init[i], k) ==>
                 Classify(objects, playerPos, init[i]).value.1.distance > c.distance)
      && (forall j :: 0 <= j < |init| && OffersTo(objects, playerPos, init[j], k) ==>
            c.distance <= Classify(objects, playerPos, init[j]).value.1.distance)
    ensures var c := Scan(objects, playerPos, es).Get(k);
      || (c == NewCandidateState() && forall j :: 0 <= j < |es| ==> !OffersTo(objects, playerPos, es[j], k))
      || exists j :: 0 <= j < |es| && Classify(objects, playerPos, es[j]) == Some((k, c)) &&
           forall i :: 0 <= i < j && OffersTo(objects, playerPos, es[i], k) ==>
             Classify(objects, playerPos, es[i]).value.1.distance > c.distance
    ensures forall j :: 0 <= j < |es| && OffersTo(objects, playerPos, es[j], k) ==>
              Scan(objects, playerPos, es).Get(k).distance <= Classify(objects, playerPos, es[j]).value.1.distance
  {
    var init := es[..|es| - 1];
    var last := |es| - 1;
    var e := es[last];
    var prev := Scan(objects, playerPos, init).Get(k);
    var c := Scan(objects, playerPos, es).Get(k);
    assert forall j :: 0 <= j < last ==> es[j] == init[j];
    if OffersTo(objects, playerPos, e, k) {
      var o := Classify(objects, playerPos, e).value.1;
      assert c == Offer(prev, o);
      if o.distance < prev.distance {
        assert c == o;
        assert Classify(objects, playerPos, es[last]) == Some((k, c));
      } else {
        assert c == prev;
      }
    } else {
      assert c == prev;
    }
  }

  /** Every fresh (invalid) bucket after the pass received no offer. */
  lemma InvalidBucketReceivedNothing(objects: map<u64, ObjectData>, playerPos: C3Vector, es: seq<ListEntry>, k: Bucket)
    requires !Scan(objects, playerPos, es).Get(k).IsValid()
    ensures forall j :: 0 <= j < |es| ==> !OffersTo(objects, playerPos, es[j], k)
  {
    ScanBucket(objects, playerPos, es, k);
  }

  /**
    `c`, offered by the visited entity `es[j]` to bucket `k`, is the winner of
    a pass over `es`: no visited entity offers itself to a bucket of higher
    priority than `k` (priority dominates distance), no entity offered to `k`
    is nearer, and every entity before `es[j]` that offered itself to `k` is
    strictly farther (ties keep the first found).
  */
  ghost predicate Wins(objects: map<u64, ObjectData>, pos: C3Vector, es: seq<ListEntry>, j: int, k: Bucket, c: CandidateState)
  {
    && 0 <= j < |es|
    && Classify(objects, pos, es[j]) == Some((k, c))
    && (forall i :: 0 <= i < |es| && Classify(objects, pos, es[i]).Some? ==>
          Classify(objects, pos, es[i]).value.0.Rank() >= k.Rank())
    && (forall i :: 0 <= i < |es| && OffersTo(objects, pos, es[i], k) ==>
          c.distance <= Classify(objects, pos, es[i]).value.1.distance)
    && (forall i :: 0 <= i < j && OffersTo(objects, pos, es[i], k) ==>
          Classify(objects, pos, es[i]).value.1.distance > c.distance)
  }

  /** A pass finds nothing exactly when no visited entity offers itself to any bucket. */
  lemma {:induction false} ScanFindsNothing(objects: map<u64, ObjectData>, pos: C3Vector, es: seq<ListEntry>)
    ensures Select(Scan(objects, pos, es)).None? <==> forall j :: 0 <= j < |es| ==> Classify(objects, pos, es[j]).None?
  {
    var b := Scan(objects, pos, es);
    SelectHighestPriority(b);
    if Select(b).None? {
      forall j | 0 <= j < |es|
        ensures Classify(objects, pos, es[j]).None?
      {
        if Classify(objects, pos, es[j]).Some? {
          var k := Classify(objects, pos, es[j]).value.0;
          assert OffersTo(objects, pos, es[j], k);
          InvalidBucketReceivedNothing(objects, pos, es, k);
          assert false;
        }
      }
    } else {
      var c := Select(b).value;
      var k: Bucket :| c == b.Get(k) && b.Get(k).IsValid();
      ScanBucket(objects, pos, es, k);
      assert c != NewCandidateState();
    }
  }

  /** When a pass finds a candidate, that candidate wins in the sense of `Wins`. */
  lemma {:induction false} ScanWinner(objects: map<u64, ObjectData>, pos: C3Vector, es: seq<ListEntry>)
    requires Select(Scan(objects, pos, es)).Some?
    ensures exists j: int, k: Bucket :: Wins(objects, pos, es, j, k, Select(Scan(objects, pos, es)).value)
  {
    var b := Scan(objects, pos, es);
    SelectHighestPriority(b);
    var c := Select(b).value;
    var k: Bucket :| c == b.Get(k) && b.Get(k).IsValid() &&
                     forall k': Bucket :: k'.Rank() < k.Rank() ==> !b.Get(k').IsValid();
    ScanBucket(objects, pos, es, k);
    assert c != NewCandidateState();
    var j :| 0 <= j < |es| && Classify(objects, pos, es[j]) == Some((k, c)) &&
             forall i :: 0 <= i < j && OffersTo(objects, pos, es[i], k) ==>
               Classify(objects, pos, es[i]).value.1.distance > c.distance;
    forall i | 0 <= i < |es| && Classify(objects, pos, es[i]).Some?
      ensures Classify(objects, pos, es[i]).value.0.Rank() >= k.Rank()
    {
      var k' := Classify(objects, pos, es[i]).value.0;
      assert OffersTo(objects, pos, es[i], k');
      if k'.Rank() < k.Rank() {
        InvalidBucketReceivedNothing(objects, pos, es, k');
        assert false;
      }
    }
    assert Wins(objects, pos, es, j, k, c);
  }

  /**
    `find_best_candidate` finds nothing exactly when no entity before the
    first terminal link offers itself to a bucket, and otherwise returns the
    winner of the pass over those entities.
  */
  lemma FindBestWinner(w: World)
    requires Terminated(w.list) && w.playerGuid in w.objects
    ensures var pos := w.objects[w.playerGuid].unitPosition;
            var es := Visited(w.list);
      && (FindBest(w).None? <==> forall j :: 0 <= j < |es| ==> Classify(w.objects, pos, es[j]).None?)
      && (FindBest(w).None? <==> forall j :: 0 <= j < |es| ==> !Eligible(w.objects, pos, es[j]))
      && (FindBest(w).Some? ==> exists j: int, k: Bucket :: Wins(w.objects, pos, es, j, k, FindBest(w).value))
  {
    var pos := w.objects[w.playerGuid].unitPosition;
    var es := Visited(w.list);
    ScanFindsNothing(w.objects, pos, es);
    if FindBest(w).Some? {
      ScanWinner(w.objects, pos, es);
    }
  }

  /** The winner is always a unit or a game object within range, so the command always acts on it. */
  lemma WinnerIsUnitOrGameObject(w: World)
    requires Terminated(w.list)
    ensures FindBest(w).Some? ==>
              && (FindBest(w).value.objType == Unit || FindBest(w).value.objType == GameObject)
              && FindBest(w).value.distance <= MAX_DISTANCE_SQ
  {
    if FindBest(w).Some? {
      FindBestWinner(w);
    }
  }

  /**
    An entity whose guid no longer resolves, one summoned by a player, one
    that is neither a unit nor a game object, a unit or game object beyond
    range, and a blacklisted game object update no candidate, so none of them
    is ever the winner (FindBestWinner) — even when it is the only entity.
  */
  lemma ExcludedEntityUpdatesNothing(objects: map<u64, ObjectData>, pos: C3Vector, e: ListEntry)
    ensures e.guid !in objects ==> Classify(objects, pos, e).None?
    ensures e.guid in objects ==>
              var obj := objects[e.guid];
              var t := FromRaw(obj.rawType);
              || IsPlayerSummoned(objects, obj)
              || (t != Unit && t != GameObject)
              || (t == Unit && pos.SquaredDistanceTo(e.unitPosition) > MAX_DISTANCE_SQ)
              || (t == GameObject && pos.SquaredDistanceTo(e.objectPosition) > MAX_DISTANCE_SQ)
              || (t == GameObject && IsBlacklisted(obj.gameObjectId))
              ==> Classify(objects, pos, e).None?
  {
  }

  /** Links after the first terminal link are never read: the result does not depend on them. */
  lemma {:induction false} LinksAfterTerminalIgnored(w: World, rest: seq<ListEntry>)
    requires Terminated(w.list)
    ensures var n := FirstTerminal(w.list);
            var w' := w.(list := w.list[..n + 1] + rest);
            Terminated(w'.list) && FindBest(w') == FindBest(w)
  {
    var n := FirstTerminal(w.list);
    var list' := w.list[..n + 1] + rest;
    assert list'[..n + 1] == w.list[..n + 1];
    FirstTerminalOfPrefix(w.list, list', n);
    assert list'[..n] == w.list[..n];
    assert Visited(list') == Visited(w.list);
    var w' := w.(list := list');
    assert GetObjectPointer(w'.objects, w.playerGuid) == GetObjectPointer(w.objects, w.playerGuid);
    assert FindBest(w') == FindBest(w);
  }

  lemma {:induction false} FirstTerminalOfPrefix(a: seq<ListEntry>, b: seq<ListEntry>, n: nat)
    requires n < |a| && n < |b| && a[..n + 1] == b[..n + 1]
    requires IsTerminal(a[n].link) && forall k :: 0 <= k < n ==> !IsTerminal(a[k].link)
    ensures Terminated(a) && Terminated(b) && FirstTerminal(a) == n && FirstTerminal(b) == n
  {
    assert a[n] == a[..n + 1][n] == b[n];
    assert forall k :: 0 <= k < n ==> a[k] == a[..n + 1][k] == b[k];
    FirstTerminalIsFirst(a, n);
    FirstTerminalIsFirst(b, n);
  }

  lemma FirstTerminalIsFirst(list: seq<ListEntry>, n: nat)
    requires n < |list| && IsTerminal(list[n].link)
    requires forall k :: 0 <= k < n ==> !IsTerminal(list[k].link)
    ensures Terminated(list) && FirstTerminal(list) == n
  {
  }

  // ---------------------------------------------------------------------------
  // The pass, as the source runs it
  // ---------------------------------------------------------------------------

  /**
    `process_unit`: offers a unit in range to the candidate `UnitBucket`
    names, and leaves the other two candidates untouched. The three
    candidates are distinct, as Rust's exclusive borrows guarantee.
  */
  method ProcessUnit(e: ListEntry, guid: u64, objType: ObjectType, distance: real,
                     lootable: Candidate, skinnable: Candidate, aliveUnit: Candidate)
    requires lootable != skinnable && lootable != aliveUnit && skinnable != aliveUnit
    modifies lootable, skinnable, aliveUnit
    ensures var o := CandidateState(guid, e.link, objType, distance);
      && lootable.State() == (if UnitBucket(e) == Some(Lootable) then Offer(old(lootable.State()), o) else old(lootable.State()))
      && skinnable.State() == (if UnitBucket(e) == Some(Skinnable) then Offer(old(skinnable.State()), o) else old(skinnable.State()))
      && aliveUnit.State() == (if UnitBucket(e) == Some(Alive) then Offer(old(aliveUnit.State()), o) else old(aliveUnit.State()))
  {
    if e.health == 0 {
      if e.lootable {
        lootable.Update(guid, e.link, objType, distance);
      } else if e.skinnable {
        skinnable.Update(guid, e.link, objType, distance);
      }
    } else if e.health > 0 {
      aliveUnit.Update(guid, e.link, objType, distance);
    }
  }

  /**
    Rust's `f64 as i32`, applied to the autoloot argument: truncation toward
    zero, saturating at the bounds of `i32`.
  */
  function TruncateToI32(x: real): (r: i32)
    ensures 0.0 <= x < 2147483648.0 ==> r as real <= x < r as real + 1.0
    ensures -2147483649.0 < x <= 0.0 ==> r as real - 1.0 < x <= r as real
    ensures x >= 2147483648.0 ==> r == 0x7FFF_FFFF
    ensures x <= -2147483649.0 ==> r == -0x8000_0000
  {
    var t := if x >= 0.0 then x.Floor else -((-x).Floor);
    if t > 0x7FFF_FFFF then 0x7FFF_FFFF
    else if t < -0x8000_0000 then -0x8000_0000
    else t as i32
  }

  /** An integral autoloot argument reaches the game unchanged. */
  lemma TruncateIntegral(n: i32)
    ensures TruncateToI32(n as real) == n
  {
  }

  /**
    `find_best_candidate`: walks the list from its first link until a link
    is null or has its low bit set, sorting each entity into the four
    candidates, then picks by priority. The result is the specification
    `FindBest`, paired with the truncated autoloot argument.
  */
  method FindBestCandidate(w: World, autolootArg: real) returns (r: Option<(CandidateState, i32)>)
    requires Terminated(w.list)
    ensures r.Some? <==> FindBest(w).Some?
    ensures r.Some? ==> r.value == (FindBest(w).value, TruncateToI32(autolootArg))
  {
    var autoloot := TruncateToI32(autolootArg);
    var player: ObjectData;
    match GetObjectPointer(w.objects, w.playerGuid) {
      case None =>
        return Option.None;
      case Some(p) =>
        player := p;
    }
    var playerPos := player.unitPosition;

    var lootable := new Candidate();
    var gameobject := new Candidate();
    var skinnable := new Candidate();
    var aliveUnit := new Candidate();

    ghost var n := FirstTerminal(w.list);
    var i := 0;
    var current := w.list[0].link;
    while current != 0 && current % 2 == 0
      invariant 0 <= i <= n
      invariant current == w.list[i].link
      invariant Buckets(lootable.State(), gameobject.State(), skinnable.State(), aliveUnit.State())
                == Scan(w.objects, playerPos, w.list[..i])
      decreases n - i
    {
      var e := w.list[i];
      var guid := e.guid;
      match GetObjectPointer(w.objects, guid) {
        case None =>
        case Some(obj) =>
          var objType := FromRaw(obj.rawType);
          if !IsPlayerSummoned(w.objects, obj) && (objType == Unit || objType == GameObject) {
            var objPos := if objType == Unit then e.unitPosition else e.objectPosition;
            var distance := playerPos.SquaredDistanceTo(objPos);
            if distance <= MAX_DISTANCE_SQ {
              if objType == Unit {
                ProcessUnit(e, guid, objType, distance, lootable, skinnable, aliveUnit);
              } else if !IsBlacklisted(obj.gameObjectId) {
                gameobject.Update(guid, obj.pointer, objType, distance);
              }
            }
          }
      }
      assert w.list[..i + 1][..i] == w.list[..i];
      i := i + 1;
      current := w.list[i].link;
    }

    var candidate: CandidateState;
    if lootable.State().IsValid() {
      candidate := lootable.State();
    } else if gameobject.State().IsValid() {
      candidate := gameobject.State();
    } else if skinnable.State().IsValid() {
      candidate := skinnable.State();
    } else if aliveUnit.State().IsValid() {
      candidate := aliveUnit.State();
    } else {
      return Option.None;
    }
    r := Some((candidate, autoloot));
  }

  // ---------------------------------------------------------------------------
  // The Lua command
  // ---------------------------------------------------------------------------

  /**
    The first Lua argument as `lua_isnumber` and `lua_tonumber` see it: a
    number (or, by Lua's own rule, a string that converts to one), or not.
  */
  datatype LuaArgument = Numeric(value: real) | NotNumeric

  /** How the command ends: returning a value count to Lua, or raising a Lua error. */
  datatype Outcome = Returned(count: int) | Raised(message: string)

  /** The calls the command makes into the game client, in order. */
  datatype Action = SetTarget(guid: u64) | InteractUnit(pointer: u32, autoloot: i32) | InteractObject(pointer: u32, autoloot: i32)

  /**
    `Script_InteractNearest`: does nothing outside the world, raises the
    usage error for a non-numeric argument, and otherwise targets and
    interacts with the winning unit, or interacts with the winning game
    object, reporting 1; with no winner it does nothing and reports 0.
  */
  method InteractNearest(w: World, arg: LuaArgument) returns (outcome: Outcome, actions: seq<Action>)
    requires w.inWorld ==> Terminated(w.list)
    ensures !w.inWorld ==> outcome == Returned(0) && actions == []
    ensures w.inWorld && arg.NotNumeric? ==> outcome == Raised(ERR_USAGE) && actions == []
    ensures w.inWorld && arg.Numeric? && FindBest(w).None? ==> outcome == Returned(0) && actions == []
    ensures w.inWorld && arg.Numeric? && FindBest(w).Some? && FindBest(w).value.objType == Unit ==>
              var c := FindBest(w).value;
              outcome == Returned(1) && actions == [SetTarget(c.guid), InteractUnit(c.pointer, TruncateToI32(arg.value))]
    ensures w.inWorld && arg.Numeric? && FindBest(w).Some? && FindBest(w).value.objType == GameObject ==>
              var c := FindBest(w).value;
              outcome == Returned(1) && actions == [InteractObject(c.pointer, TruncateToI32(arg.value))]
    ensures outcome == Returned(1) <==> w.inWorld && arg.Numeric? && FindBest(w).Some?
    ensures outcome.Raised? <==> w.inWorld && arg.NotNumeric?
  {
    if !w.inWorld {
      return Returned(0), [];
    }
    if arg.NotNumeric? {
      return Raised(ERR_USAGE), [];
    }
    var found := FindBestCandidate(w, arg.value);
    match found {
      case None =>
        return Returned(0), [];
      case Some((candidate, autoloot)) =>
        WinnerIsUnitOrGameObject(w);
        match candidate.objType {
          case Unit =>
            actions := [SetTarget(candidate.guid), InteractUnit(candidate.pointer, autoloot)];
          case GameObject =>
            actions := [InteractObject(candidate.pointer, autoloot)];
          case _ =>
            return Returned(0), [];
        }
        outcome := Returned(1);
    }
  }

  // ---------------------------------------------------------------------------
  // Scenarios
  // ---------------------------------------------------------------------------

  const Origin: C3Vector := C3Vector(0.0, 0.0, 0.0)

  /** A list entry at the given link for the entity `guid`, standing at `at`. */
  function EntryAt(link: u32, guid: u64, at: C3Vector, health: i32, lootable: bool): ListEntry
  {
    ListEntry(link, guid, at, at, health, lootable, false)
  }

  /** The end-of-list link. */
  const End: ListEntry := EntryAt(0, 0, Origin, 0, false)

  /** The player (guid 1) at the origin, a unit (guid 2) and a chest (guid 3, entry 42). */
  /**
    The player (guid 1) at the origin, a unit (guid 2), a chest (guid 3,
    entry 42) and a blacklisted chest (guid 4, entry 179830).
  */
  const SceneObjects: map<u64, ObjectData> := map[
    1 := ObjectData(100, 4, 0, 0, Origin),
    2 := ObjectData(200, 3, 0, 0, Origin),
    3 := ObjectData(300, 5, 0, 42, Origin),
    4 := ObjectData(400, 5, 0, 179830, Origin)
  ]

  /** The player of the scenes resolves, at the origin. */
  lemma ScenePlayer()
    ensures GetObjectPointer(SceneObjects, 1) == Some(ObjectData(100, 4, 0, 0, Origin))
  {
  }

  /** A lootable corpse 3 yards away beats a game object 1 yard away: priority dominates distance. */
  lemma LootableCorpseBeatsNearerObject()
    ensures var corpse := EntryAt(8, 2, C3Vector(3.0, 0.0, 0.0), 0, true);
            var chest := EntryAt(16, 3, C3Vector(1.0, 0.0, 0.0), 0, false);
            var w := World(true, 1, SceneObjects, [corpse, chest, End]);
            Terminated(w.list) && FindBest(w) == Some(CandidateState(2, 8, Unit, 9.0))
  {
    var corpse := EntryAt(8, 2, C3Vector(3.0, 0.0, 0.0), 0, true);
    var chest := EntryAt(16, 3, C3Vector(1.0, 0.0, 0.0), 0, false);
    var w := World(true, 1, SceneObjects, [corpse, chest, End]);
    FirstTerminalIsFirst(w.list, 2);
    assert Visited(w.list) == [corpse, chest];
    ScenePlayer();
    var o := CandidateState(2, 8, Unit, 9.0);
    assert Origin.SquaredDistanceTo(corpse.unitPosition) == 9.0;
    assert Classify(SceneObjects, Origin, corpse) == Some((Lootable, o));
    assert Origin.SquaredDistanceTo(chest.objectPosition) == 1.0;
    assert Classify(SceneObjects, Origin, chest).value.0 == GameObjectBucket;
    var b1 := Visit(SceneObjects, Origin, NewBuckets(), corpse);
    assert [corpse, chest][..1] == [corpse] && [corpse][..0] == [];
    assert Scan(SceneObjects, Origin, [corpse]) == b1;
    assert b1.Get(Lootable) == o;
    var b := Visit(SceneObjects, Origin, b1, chest);
    assert Scan(SceneObjects, Origin, [corpse, chest]) == b;
    assert b.Get(Lootable) == o;
  }

  /** A living unit just inside the range is chosen when it is the only entity in range. */
  lemma LivingUnitInRange()
    ensures var unit := EntryAt(8, 2, C3Vector(4.99, 0.0, 0.0), 100, false);
            var w := World(true, 1, SceneObjects, [unit, End]);
            Terminated(w.list) && FindBest(w) == Some(CandidateState(2, 8, Unit, 24.9001))
  {
    var unit := EntryAt(8, 2, C3Vector(4.99, 0.0, 0.0), 100, false);
    var w := World(true, 1, SceneObjects, [unit, End]);
    FirstTerminalIsFirst(w.list, 1);
    assert Visited(w.list) == [unit];
    ScenePlayer();
    var o := CandidateState(2, 8, Unit, 24.9001);
    assert Origin.SquaredDistanceTo(unit.unitPosition) == 24.9001 by {
      assert 4.99 * 4.99 == 24.9001;
    }
    assert UnitBucket(unit) == Some(Alive);
    assert Classify(SceneObjects, Origin, unit) == Some((Alive, o));
    assert [unit][..0] == [];
    var b := Visit(SceneObjects, Origin, NewBuckets(), unit);
    assert Scan(SceneObjects, Origin, [unit]) == b;
    assert b.Get(Alive) == o;
    assert !b.Get(Lootable).IsValid() && !b.Get(GameObjectBucket).IsValid() && !b.Get(Skinnable).IsValid();
  }

  /** Entities beyond the range leave nothing to interact with. */
  lemma NothingInRange()
    ensures var far := EntryAt(8, 2, C3Vector(0.0, 5.01, 0.0), 100, false);
            var chest := EntryAt(16, 3, C3Vector(0.0, 6.0, 0.0), 0, false);
            var w := World(true, 1, SceneObjects, [far, chest, End]);
            Terminated(w.list) && FindBest(w) == Option.None
  {
    var far := EntryAt(8, 2, C3Vector(0.0, 5.01, 0.0), 100, false);
    var chest := EntryAt(16, 3, C3Vector(0.0, 6.0, 0.0), 0, false);
    var w := World(true, 1, SceneObjects, [far, chest, End]);
    FirstTerminalIsFirst(w.list, 2);
    assert Visited(w.list) == [far, chest];
    ScenePlayer();
    assert 5.01 * 5.01 > MAX_DISTANCE_SQ;
    assert Classify(SceneObjects, Origin, far) == Option.None;
    assert Origin.SquaredDistanceTo(chest.objectPosition) == 36.0;
    assert Classify(SceneObjects, Origin, chest) == Option.None;
    assert [far, chest][..1] == [far] && [far][..0] == [];
    assert Scan(SceneObjects, Origin, [far]) == NewBuckets();
    assert Scan(SceneObjects, Origin, [far, chest]) == NewBuckets();
  }

  /** A blacklisted game object is never chosen, even as the only entity in range. */
  lemma BlacklistedObjectAlone()
    ensures var chest := EntryAt(8, 4, C3Vector(1.0, 0.0, 0.0), 0, false);
            var w := World(true, 1, SceneObjects, [chest, End]);
            Terminated(w.list) && FindBest(w) == Option.None
  {
    var chest := EntryAt(8, 4, C3Vector(1.0, 0.0, 0.0), 0, false);
    var w := World(true, 1, SceneObjects, [chest, End]);
    FirstTerminalIsFirst(w.list, 1);
    assert Visited(w.list) == [chest];
    ScenePlayer();
    assert IsBlacklisted(179830);
    assert Classify(SceneObjects, Origin, chest) == Option.None;
    assert [chest][..0] == [];
    assert Scan(SceneObjects, Origin, [chest]) == NewBuckets();
  }
}
