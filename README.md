# InteractNearest: a verified model

This project models the selection engine of the `InteractNearest(autoloot)`
Lua command of interact-rs, a client add-on for World of Warcraft 1.12.1.
When the player is in the world, the command makes one pass over the game's
list of visible objects. Each eligible entity goes into one of four priority
buckets: lootable corpse, game object, skinnable corpse, living unit. Each
bucket keeps its nearest entity, and a later entity replaces it only when it
is strictly closer. The command then interacts with the best entity of the
highest-priority bucket that holds one.

Files:

- `wrappers.dfy`: module `Wrappers`, the `Option` type.
- `game.dfy`: module `Game`, the pure helpers of `src/game.rs`. These are the
  machine integer widths, the `ObjectType` enumeration with its normalisation
  from the raw type word, positions with their (squared) distance, and the
  game-object blacklist.
- `scripts.dfy`: module `Scripts`, the command of `src/scripts.rs`. It holds:
  - a class `Candidate` whose `Update` method changes its fields in place;
  - the specification of one pass as functions (`Classify`, `Visit`, `Scan`,
    `Select`, `FindBest`) with lemmas about them;
  - the pass itself as the method `FindBestCandidate`, whose `while` loop
    follows the list links and is proved equal to `FindBest`;
  - the command as the method `InteractNearest`, which returns its outcome
    and the trace of calls it makes into the game.

The game's memory is replaced by a snapshot, `Scripts.World`:

- `objects` maps each guid that the game's guid lookup resolves to the
  non-null object pointer and the values read through it (type word,
  summoned-by guid, game-object id, unit position).
- `list` is the chain of list links. Each `ListEntry` holds the values read
  through that link: its guid, unit position, game-object position, health,
  and the loot and skin flags. In the game these flags are bit `0x1` of the
  dynamic flags and bit `0x0400_0000` of the unit flags.

Distances are compared squared, over the reals. The range 5.0 becomes 25.0
and the sentinel 1000.0 becomes 1000000.0. `Game.SquareOrder` shows that for
non-negative distances every `<` and `<=` comparison gives the same answer
on the squares.

## Model

| member | source | states |
|---|---|---|
| Game.ObjectType.Discriminant | src/game.rs:21-33 | the `repr(u32)` discriminant is at most 7, and it is 0 exactly for `None` |
| Game.DefaultObjectType | src/game.rs:22-25 | the default object type is the variant with discriminant 0, `None` |
| Game.FromRaw | src/game.rs:35-47 | a raw type word gives a real type exactly when it is 1..7, and that type's discriminant is the word; every other word gives `None` |
| Game.FromRawRoundTrip | src/game.rs:21-47 | normalising any variant's discriminant gives back that variant |
| Game.FromRawUnknownValues | src/game.rs:564-581 | 0, 8, 100 and `u32::MAX` normalise to `None` |
| Game.C3Vector.SquaredDistanceTo | src/game.rs:63-68 | the squared Euclidean distance between two positions is never negative |
| Game.DistanceToSelf | src/game.rs:395-408 | the distance from a position to itself is zero |
| Game.DistanceSymmetric | src/game.rs:488-501 | distance does not depend on the direction it is measured in |
| Game.DistanceExamples | src/game.rs:455-550 | the 3-4-5 triangle gives 5 (squared 25) at the origin and at the range edge; a 6-yard offset gives 6; the (-1,-1,-1) to (1,1,1) diagonal gives the square root of 12 |
| Game.SquareOrder | src/scripts.rs:159-162 | for non-negative distances, `<` and `<=` on distances agree with `<` and `<=` on their squares, so the squared model makes the same range and replacement decisions |
| Game.Blacklist | src/game.rs:76-79 | the blacklist set holds exactly the ids of the constant list |
| Game.IsBlacklisted | src/game.rs:83-85 | an id is blacklisted exactly when it is 179830, 179831, 179785 or 179786 |
| Game.BlacklistSize | src/game.rs:599-611 | the blacklist is the set {179830, 179831, 179785, 179786} of size 4 |
| Game.NotBlacklistedExamples | src/game.rs:613-620 | 0, 1, 179829, 179832 and `u32::MAX` are not blacklisted |
| Scripts.FirstTerminal | src/scripts.rs:136-138 | the position of the first link that is 0 or has its low bit set; every earlier link is neither |
| Scripts.Visited | src/scripts.rs:136-138 | the links the loop visits are exactly those before the first terminal link, in list order |
| Scripts.ConstantValues | src/scripts.rs:14-24 | the range 5.0 and sentinel 1000.0 square to 25 and 1000000, the sentinel lies beyond the range, and the usage message is the 32-character `Usage: InteractNearest(autoloot)` |
| Scripts.CandidateState.IsValid | src/scripts.rs:49-51 | a candidate is valid exactly when its type is not the default type `None` |
| Scripts.NewCandidateState | src/scripts.rs:40-47 | a fresh candidate is invalid and its distance lies beyond the interaction range |
| Scripts.Candidate.constructor | src/scripts.rs:40-47 | `Candidate::new` holds guid 0, pointer 0, type `None` and the sentinel distance |
| Scripts.Offer | src/scripts.rs:53-60 | an update keeps either the incumbent or the offered entity, stores the smaller distance, and keeps the incumbent on a tie |
| Scripts.Candidate.Update | src/scripts.rs:53-60 | all four fields are replaced when the offered distance is strictly smaller; otherwise nothing changes |
| Scripts.OfferAllMinimum | src/scripts.rs:53-60 | after any sequence of updates the stored distance is the minimum of the initial and all offered distances; the stored entity is the initial one or the first offered at that minimum |
| Scripts.OfferAllNonIncreasing | src/scripts.rs:53-60 | the stored distance never increases as updates are made |
| Scripts.FreshCandidateTakesFirstInRange | src/scripts.rs:40-60 | a fresh candidate is always replaced by the first entity offered within range |
| Scripts.Select | src/scripts.rs:188-201 | the priority chain only returns a valid candidate |
| Scripts.SelectHighestPriority | src/scripts.rs:188-201 | the chain returns nothing exactly when all four candidates are invalid, and otherwise returns the valid candidate of the highest-priority bucket, whatever the other buckets' distances |
| Scripts.IsPlayerSummoned | src/scripts.rs:205-217 | an object counts as player-summoned exactly when its summoned-by guid is non-zero, resolves, and resolves to a Player |
| Scripts.UnitBucket | src/scripts.rs:229-244 | health 0 with loot goes to the lootable bucket; health 0 without loot but with skin goes to the skinnable bucket; positive health goes to the alive bucket; health 0 with neither flag, or negative health, goes nowhere |
| Scripts.ProcessUnit | src/scripts.rs:220-245 | `process_unit` updates only the candidate `UnitBucket` names and leaves the other two as they were |
| Scripts.Classify | src/scripts.rs:139-183 | an entity offers itself exactly when it is eligible: its guid resolves, no player summoned it, and it is a unit within range that `UnitBucket` puts somewhere or a non-blacklisted game object within range. An eligible unit offers its guid, list link, type and distance to the bucket `UnitBucket` names; an eligible game object offers its guid, resolved pointer, type and distance to the game-object bucket. Conversely, whatever it offers carries exactly these values |
| Scripts.ExcludedEntityUpdatesNothing | src/scripts.rs:139-183 | an unresolved guid, a player-summoned object, a type other than Unit or GameObject, an entity beyond range, or a blacklisted game object updates no candidate |
| Scripts.Visit | src/scripts.rs:139-185 | one loop iteration offers the entity to the bucket it classifies into, as `Candidate::update` does, leaves the other buckets unchanged, and never increases a bucket's distance |
| Scripts.Scan | src/scripts.rs:135-186 | after the loop, every bucket is either still fresh or holds a valid entity within range |
| Scripts.FindBest | src/scripts.rs:117-202 | `find_best_candidate` finds nothing when the player does not resolve, and only returns a valid candidate |
| Scripts.ScanBucket | src/scripts.rs:135-186 | after the pass a bucket is still fresh when nothing was offered to it; otherwise it holds the first entity offered at the minimum distance, and nothing offered to it was nearer |
| Scripts.ScanFindsNothing | src/scripts.rs:188-199 | the pass finds nothing exactly when no visited entity offers itself to any bucket |
| Scripts.ScanWinner | src/scripts.rs:135-201 | the candidate found is offered by a visited entity; no visited entity goes to a higher-priority bucket; none in its bucket is nearer; every earlier one in its bucket is strictly farther |
| Scripts.FindBestWinner | src/scripts.rs:117-202 | for a resolved player, `find_best_candidate` finds nothing exactly when no entity before the terminal link is eligible (in `Classify`'s sense), and otherwise finds the winner described by `ScanWinner` |
| Scripts.WinnerIsUnitOrGameObject | src/scripts.rs:102-111 | the winner is always a unit or a game object within range, so the command's fallback arm is never taken |
| Scripts.LinksAfterTerminalIgnored | src/scripts.rs:136-138 | replacing every link after the first terminal link does not change the result |
| Scripts.TruncateToI32 | src/scripts.rs:118 | the autoloot argument is truncated toward zero and saturates at the bounds of `i32` |
| Scripts.TruncateIntegral | src/scripts.rs:118 | an integral autoloot value within `i32` is passed on unchanged |
| Scripts.FindBestCandidate | src/scripts.rs:117-202 | the loop over the list computes exactly `FindBest`, paired with the truncated autoloot value |
| Scripts.InteractNearest | src/scripts.rs:82-114 | outside the world: returns 0 and does nothing. A non-numeric argument: raises the usage error. No winner: returns 0. A unit winner: sets the target, then interacts with the unit's link, returning 1. A game-object winner: only interacts with its pointer, returning 1. The result is 1 exactly when in world, numeric and a winner exists |
| Scripts.LootableCorpseBeatsNearerObject | src/scripts.rs:188-201 | a lootable corpse 3 yards away wins over a game object 1 yard away |
| Scripts.LivingUnitInRange | src/scripts.rs:159-162 | a living unit 4.99 yards away, alone in range, is chosen |
| Scripts.NothingInRange | src/scripts.rs:159-199 | a unit 5.01 yards away and a game object 6 yards away leave nothing to interact with |
| Scripts.BlacklistedObjectAlone | src/scripts.rs:175-180 | a blacklisted game object 1 yard away, alone in the list, leaves nothing to interact with |

## Left out

- Raw memory reads (`read`, `read_offset`, and the `get_*` and `is_unit_*` accessors of src/game.rs) are replaced by the `World` snapshot. The model assumes that memory does not change during one pass.
- Calls into the game client (`set_target`, `interact_unit`, `interact_object`) are recorded as `Action`s. The guid lookup `get_object_pointer` is the `objects` map.
- src/lua.rs is not part of this model. The first Lua argument is an input, `LuaArgument`: numeric (with its value) or not. A raised Lua error is the outcome `Raised`, which ends the command.
- src/hooks.rs, src/logging.rs, src/offsets.rs, src/errors.rs and src/lib.rs are not part of this model. They cover function detouring, file logging, address constants, error enums and DLL entry, with no selection logic.
- The registration of the command (`register_functions`) is not modelled, because it is a foreign call.
- Game.C3Vector.SquaredDistanceTo: returns the squared distance over reals, not the `f32` square root. Float rounding and `sqrt` are not modelled. `Game.SquareOrder` shows the comparisons agree.
- Game.DistanceToSelf: proves that the distance from a point to itself is zero. It does not prove the converse (zero distance only between equal points).
- Scripts.TruncateToI32: NaN and infinite arguments are not modelled, since the reals have none.
- Scripts.FindBest: `get_object_pointer` returns an `Option`, but src/scripts.rs:124, 141 and 212 use its result as a raw `u32`, as if a null pointer were read through. The model reads an unresolved player as "no candidate" and an unresolved entity as "skip this entity".
- Scripts.FindBestCandidate: src/scripts.rs:133 calls `get_blacklist`, which exists only under `cfg(test)`. The model tests membership with `is_blacklisted`, which reads the same set.
- Scripts.FindBestCandidate: requires the snapshot to hold a terminal link (null or odd). A list that never ends would loop forever in the game and is not modelled.
- Scripts.UnitBucket: a unit with negative health updates no bucket, as the code's `else if health > 0` branch does. Such a unit is not treated as alive.
- `Candidate`'s derived `Default` (all zero) is not modelled, because the command never uses it.
- Concurrency, and the game changing its objects during a pass, are not modelled.
