# ocraft-s2client protocol mapping layer, modelled in Dafny

This project models the layer of the ocraft StarCraft II client that converts between
the game's wire messages and immutable domain values. On the wire, every field is
optional and repeated fields are lists. The layer also holds the builders that
assemble those values. Five classes are modelled:

- `ActionRawUnitCommand` (module `ActionRaw`) is a command for a group of units. It
  has a staged builder (units, ability, an optional target that is either a unit or a
  position, the queued flag), a decoder from `Raw.ActionRawUnitCommand` and an
  encoder back to it.
- `DebugDraw` (module `Debug`) is a batch of debug overlays in four ordered lists,
  with its builder and its encoder.
- `MultiplayerOptions` (module `Game`) holds the shared port, the server port pair
  and a set of client port pairs. The module has its builder and the contiguous port
  assignment `multiplayerSetupFor`.
- `MapState` (module `ObservationRaw`) decodes the visibility and creep layers.
- `ResponseObservation` (module `Response`) decodes an observation response.

Shared modules:

- `Wrappers` holds `Option`, `Result` and `Outcome`.
- `Errors` holds the error kinds the layer raises as `IllegalArgumentException`.
  `Required(name)` is the "<name> is required" failure.
- `Collections` holds the list-to-list mapping (order kept) and the list-to-set
  mapping (order and repeats dropped) that the decoders use. It also holds an
  enumeration of a set, for encoding a set into a repeated field.

How the model is built:

- Wire messages are datatypes. Each singular field is an `Option`; each repeated
  field is a `seq`. A missing message (Java `null`) is `None`.
- Domain values are datatypes. A Java `Set` field is a Dafny `set`; a Java `List`
  field is a `seq`. Value equality is Dafny's `==`, and each `Equals` function is
  proved to coincide with it.
- Builders are classes whose methods update their fields. `Build` returns a
  `Result`; a thrown exception becomes a `Failure`.
- Nested types (tags, positions, abilities, images, actions, statuses, debug
  primitives) are abstract types. Their `from`/`toSc2Api` conversions are function
  values passed in a `Converters` record. A round trip that needs one conversion to
  invert another takes that as an explicit precondition (`Inverts`).

Behaviour of the Java code worth knowing:

- The decoder does not reject a message with both target fields set: it keeps both
  (`ActionRaw.From`).
- With both map layers missing, the error names "visibility", because visibility is
  checked first (`ObservationRaw.MissingCreepReport`).
- `toSc2Api` always writes the queue flag, so an absent flag re-encodes as `false`
  (`ActionRaw.ReencodingKeepsPresence`).
- `ActionRawUnitCommand` calls `Abilities::from` with no failure path of its own; the
  model makes the lookup a total function.
- `multiplayerSetupFor` with a negative player count fails first in the JDK's
  `new HashSet<>(playerCount)`. That happens before the shared-port check, so the
  model reports `IllegalCapacity` for it.
- The built `DebugDraw`, `ActionRawUnitCommand` and `MultiplayerOptions` keep the
  builder's own collection objects (see "## Findings"). The rest of the model uses
  builders whose built values are detached, as the classes' immutability intends.

## Model

| member | source | states |
|---|---|---|
| `Collections.MapSeq` | ocraft-s2client-protocol/src/main/java/com/github/ocraft/s2client/protocol/response/ResponseObservation.java:33-41 | mapping a list keeps its length, and element `i` of the result is the conversion of element `i` of the input |
| `Collections.MapToSet` | ocraft-s2client-protocol/src/main/java/com/github/ocraft/s2client/protocol/action/raw/ActionRawUnitCommand.java:112-113 | collecting a mapped list into a set gives exactly the converted elements; the set is empty exactly when the list is |
| `Collections.MapToSetSize` | ocraft-s2client-protocol/src/main/java/com/github/ocraft/s2client/protocol/action/raw/ActionRawUnitCommand.java:112-113 | repeated tags collapse: the set is never larger than the list |
| `Collections.SetToSeq` | ocraft-s2client-protocol/src/main/java/com/github/ocraft/s2client/protocol/action/raw/ActionRawUnitCommand.java:135 | writing a set into a repeated field writes each element exactly once, in some order |
| `ActionRaw.Builder.constructor` | ocraft-s2client-protocol/src/main/java/com/github/ocraft/s2client/protocol/action/raw/ActionRawUnitCommand.java:39-43 | a new builder has no ability, no target, no units, and is not queued |
| `ActionRaw.Builder.ForUnitTags` | ocraft-s2client-protocol/src/main/java/com/github/ocraft/s2client/protocol/action/raw/ActionRawUnitCommand.java:51-55 | the given tags are added to the accumulated set: repeats collapse, earlier tags stay, no other field changes |
| `ActionRaw.Builder.ForUnits` | ocraft-s2client-protocol/src/main/java/com/github/ocraft/s2client/protocol/action/raw/ActionRawUnitCommand.java:45-49 | the units' tags are added to the accumulated set; no other field changes |
| `ActionRaw.Builder.UseAbility` | ocraft-s2client-protocol/src/main/java/com/github/ocraft/s2client/protocol/action/raw/ActionRawUnitCommand.java:57-61 | the ability is set, overwriting an earlier one; no other field changes |
| `ActionRaw.Builder.TargetUnit` | ocraft-s2client-protocol/src/main/java/com/github/ocraft/s2client/protocol/action/raw/ActionRawUnitCommand.java:63-68 | the unit target is set and the position target is cleared, so at most one target is set |
| `ActionRaw.Builder.TargetWorldSpacePosition` | ocraft-s2client-protocol/src/main/java/com/github/ocraft/s2client/protocol/action/raw/ActionRawUnitCommand.java:70-75 | the position target is set and the unit target is cleared |
| `ActionRaw.Builder.Queued` | ocraft-s2client-protocol/src/main/java/com/github/ocraft/s2client/protocol/action/raw/ActionRawUnitCommand.java:77-81 | the queued flag becomes true; nothing else changes |
| `ActionRaw.Builder.Build` | ocraft-s2client-protocol/src/main/java/com/github/ocraft/s2client/protocol/action/raw/ActionRawUnitCommand.java:83-97 | fails naming "ability id" when no ability was chosen (checked first), then "unit tag list" when no unit was added; otherwise the command holds exactly the builder's fields, at most one target and a non-empty tag set |
| `ActionRaw.BuildWithoutTarget` | ocraft-s2client-protocol/src/main/java/com/github/ocraft/s2client/protocol/action/raw/ActionRawUnitCommand.java:83-88 | building before an ability is chosen fails naming "ability id"; with an ability and one unit, building succeeds with no target and not queued |
| `ActionRaw.LastTargetWins` | ocraft-s2client-protocol/src/main/java/com/github/ocraft/s2client/protocol/action/raw/ActionRawUnitCommand.java:63-75 | of two target calls the last one wins and the other target is absent; a tag given twice appears once |
| `ActionRaw.From` | ocraft-s2client-protocol/src/main/java/com/github/ocraft/s2client/protocol/action/raw/ActionRawUnitCommand.java:99-129 | fails on a missing message, then on a missing ability id, then on an empty tag list, and succeeds otherwise; an absent queue flag reads as false, each target is present exactly when its wire field is (both are kept), and the tag set is exactly the converted wire tags |
| `ActionRaw.ToSc2Api` | ocraft-s2client-protocol/src/main/java/com/github/ocraft/s2client/protocol/action/raw/ActionRawUnitCommand.java:131-142 | the ability and the queue flag are always written; each target field is written exactly when the command has it; every tag is written once, and nothing else |
| `ActionRaw.RoundTrip` | ocraft-s2client-protocol/src/main/java/com/github/ocraft/s2client/protocol/action/raw/ActionRawUnitCommand.java:99-142 | decoding the encoding of a command with at least one unit gives that command back, when the nested decoders invert the nested encoders |
| `ActionRaw.ReencodingKeepsPresence` | ocraft-s2client-protocol/src/main/java/com/github/ocraft/s2client/protocol/action/raw/ActionRawUnitCommand.java:99-142 | re-encoding a decoded message keeps which target fields are present, and writes the queue flag even when it was absent |
| `ActionRaw.Equals` | ocraft-s2client-protocol/src/main/java/com/github/ocraft/s2client/protocol/action/raw/ActionRawUnitCommand.java:164-180 | two commands are equal exactly when all five fields are, the tags compared as sets |
| `ActionRaw.SharingBuilder.constructor` | ocraft-s2client-protocol/src/main/java/com/github/ocraft/s2client/protocol/action/raw/ActionRawUnitCommand.java:39-43 | as written: a new builder has no ability and a fresh, empty tag set object |
| `ActionRaw.SharingBuilder.ForUnitTags` | ocraft-s2client-protocol/src/main/java/com/github/ocraft/s2client/protocol/action/raw/ActionRawUnitCommand.java:51-55 | as written: the given tags are added to the tag set object the builder shares |
| `ActionRaw.SharingBuilder.UseAbility` | ocraft-s2client-protocol/src/main/java/com/github/ocraft/s2client/protocol/action/raw/ActionRawUnitCommand.java:57-61 | as written: the ability is set, overwriting an earlier one |
| `Collections.HashSet.constructor` | ocraft-s2client-protocol/src/main/java/com/github/ocraft/s2client/protocol/action/raw/ActionRawUnitCommand.java:42 | `new HashSet<>()`: a set object that starts empty |
| `Collections.HashSet.AddAll` | ocraft-s2client-protocol/src/main/java/com/github/ocraft/s2client/protocol/action/raw/ActionRawUnitCommand.java:53 | `addAll` adds every given element to a set object that others may also reference |
| `ActionRaw.SharingBuilder.Build` | ocraft-s2client-protocol/src/main/java/com/github/ocraft/s2client/protocol/action/raw/ActionRawUnitCommand.java:83-97 | as written: fails naming "ability id", then "unit tag list"; otherwise the command receives the builder's own tag set object |
| `ActionRaw.SharingCommand.constructor` | ocraft-s2client-protocol/src/main/java/com/github/ocraft/s2client/protocol/action/raw/ActionRawUnitCommand.java:91-97 | as written: the command keeps the very tag set object it is given (`unitTags = builder.unitTags`) |
| `ActionRaw.SharingBuilderLeaks` | ocraft-s2client-protocol/src/main/java/com/github/ocraft/s2client/protocol/action/raw/ActionRawUnitCommand.java:156-158 | as written: a command built for `{t1}` reads `{t1, t2}` from `getUnitTags()` after `t2` is added through its builder |
| `ActionRaw.BuiltCommandIsDetached` | ocraft-s2client-protocol/src/main/java/com/github/ocraft/s2client/protocol/action/raw/ActionRawUnitCommand.java:91-97 | corrected: a built command keeps the units it was built with when the builder grows afterwards |
| `Debug.Builder.constructor` | ocraft-s2client-protocol/src/main/java/com/github/ocraft/s2client/protocol/debug/DebugDraw.java:27-30 | a new builder has four empty lists |
| `Debug.Builder.Texts` | ocraft-s2client-protocol/src/main/java/com/github/ocraft/s2client/protocol/debug/DebugDraw.java:32-36 | the texts are appended in argument order, duplicates kept; the other three lists are unchanged |
| `Debug.Builder.Lines` | ocraft-s2client-protocol/src/main/java/com/github/ocraft/s2client/protocol/debug/DebugDraw.java:44-48 | the lines are appended in order; the other lists are unchanged |
| `Debug.Builder.Boxes` | ocraft-s2client-protocol/src/main/java/com/github/ocraft/s2client/protocol/debug/DebugDraw.java:56-60 | the boxes are appended in order; the other lists are unchanged |
| `Debug.Builder.Spheres` | ocraft-s2client-protocol/src/main/java/com/github/ocraft/s2client/protocol/debug/DebugDraw.java:68-72 | the spheres are appended in order; the other lists are unchanged |
| `Debug.Builder.Build` | ocraft-s2client-protocol/src/main/java/com/github/ocraft/s2client/protocol/debug/DebugDraw.java:80-84 | fails with "draw elements" exactly when all four lists are empty; otherwise the batch holds exactly the builder's four lists |
| `Debug.OrderMatters` | ocraft-s2client-protocol/src/main/java/com/github/ocraft/s2client/protocol/debug/DebugDraw.java:124-135 | texts added as x then y, and as y then x, give two batches that are not equal |
| `Debug.ToSc2Api` | ocraft-s2client-protocol/src/main/java/com/github/ocraft/s2client/protocol/debug/DebugDraw.java:98-106 | each list is written with the same length and order, element by element |
| `Debug.ToSc2ApiInjective` | ocraft-s2client-protocol/src/main/java/com/github/ocraft/s2client/protocol/debug/DebugDraw.java:98-106 | with lossless primitive encoders, two batches with the same encoding are equal |
| `Debug.Equals` | ocraft-s2client-protocol/src/main/java/com/github/ocraft/s2client/protocol/debug/DebugDraw.java:124-135 | two batches are equal exactly when their four lists are equal, element by element and in order |
| `Debug.ArrayList.constructor` | ocraft-s2client-protocol/src/main/java/com/github/ocraft/s2client/protocol/debug/DebugDraw.java:27 | `new ArrayList<>()`: a list object that starts empty |
| `Debug.ArrayList.AddAll` | ocraft-s2client-protocol/src/main/java/com/github/ocraft/s2client/protocol/debug/DebugDraw.java:34 | `addAll` appends to a list object that others may also reference |
| `Debug.SharingBuilder.constructor` | ocraft-s2client-protocol/src/main/java/com/github/ocraft/s2client/protocol/debug/DebugDraw.java:27-30 | as written: a new builder holds four fresh, empty list objects |
| `Debug.SharingBuilder.Build` | ocraft-s2client-protocol/src/main/java/com/github/ocraft/s2client/protocol/debug/DebugDraw.java:80-92 | as written: the batch receives the builder's own four list objects |
| `Debug.SharingBuilder.Texts` | ocraft-s2client-protocol/src/main/java/com/github/ocraft/s2client/protocol/debug/DebugDraw.java:32-36 | as written: the texts are appended, in order, to the list object the builder shares |
| `Debug.SharingDraw.constructor` | ocraft-s2client-protocol/src/main/java/com/github/ocraft/s2client/protocol/debug/DebugDraw.java:87-92 | as written: the batch keeps the very four list objects it is given |
| `Debug.SharingBuilderLeaks` | ocraft-s2client-protocol/src/main/java/com/github/ocraft/s2client/protocol/debug/DebugDraw.java:108-110 | as written: a batch built holding `[t1]` reads `[t1, t2]` from `getTexts()` after `t2` is added to its builder |
| `Debug.BuiltDrawIsDetached` | ocraft-s2client-protocol/src/main/java/com/github/ocraft/s2client/protocol/debug/DebugDraw.java:87-92 | corrected: a built batch keeps the lists it was built with when the builder grows afterwards |
| `Game.Builder.constructor` | ocraft-s2client-protocol/src/main/java/com/github/ocraft/s2client/protocol/game/MultiplayerOptions.java:34-36 | a new builder has no shared port, no server port and no client ports |
| `Game.Builder.SharedPort` | ocraft-s2client-protocol/src/main/java/com/github/ocraft/s2client/protocol/game/MultiplayerOptions.java:38-43 | a port below 1 fails with "shared port must be greater than 0" and leaves the builder unchanged; any other port is stored |
| `Game.Builder.ServerPort` | ocraft-s2client-protocol/src/main/java/com/github/ocraft/s2client/protocol/game/MultiplayerOptions.java:45-49 | the server pair is set, overwriting an earlier one |
| `Game.Builder.ClientPorts` | ocraft-s2client-protocol/src/main/java/com/github/ocraft/s2client/protocol/game/MultiplayerOptions.java:51-55 | the given pairs are added to the accumulated set |
| `Game.Builder.ClientPortsFrom` | ocraft-s2client-protocol/src/main/java/com/github/ocraft/s2client/protocol/game/MultiplayerOptions.java:57-61 | the pairs of a collection are added to the accumulated set |
| `Game.Builder.Build` | ocraft-s2client-protocol/src/main/java/com/github/ocraft/s2client/protocol/game/MultiplayerOptions.java:63-69 | fails naming "shared port", then "server port", then "client port list", whichever is missing first; otherwise the options hold the builder's fields, with a positive shared port |
| `Game.ClientPortRangeMembers` | ocraft-s2client-protocol/src/main/java/com/github/ocraft/s2client/protocol/game/MultiplayerOptions.java:79-82 | the client pairs for n players are exactly the pairs (s+4+2i, s+5+2i) with 0 ≤ i < n |
| `Game.ClientPortRangeSize` | ocraft-s2client-protocol/src/main/java/com/github/ocraft/s2client/protocol/game/MultiplayerOptions.java:79-82 | n players get exactly n distinct client pairs |
| `Game.ClientPortsDisjoint` | ocraft-s2client-protocol/src/main/java/com/github/ocraft/s2client/protocol/game/MultiplayerOptions.java:76-82 | no client port equals the shared port or a server port, and two different client pairs share no port |
| `Game.MultiplayerSetupFor` | ocraft-s2client-protocol/src/main/java/com/github/ocraft/s2client/protocol/game/MultiplayerOptions.java:76-84 | a negative player count fails on the set's capacity; otherwise a start below 0 fails on the shared port; no players fails on the empty client set; otherwise shared = s+1, server = (s+2, s+3), clients = one contiguous pair per player |
| `Game.SetupForTwoPlayersFrom5000` | ocraft-s2client-protocol/src/test/java/com/github/ocraft/s2client/protocol/game/MultiplayerOptionsTest.java:45-54 | from port 5000 with 2 players: shared 5001, server (5002, 5003), clients (5004, 5005) and (5006, 5007) |
| `Game.ClientPortOrderIrrelevant` | ocraft-s2client-protocol/src/main/java/com/github/ocraft/s2client/protocol/game/MultiplayerOptions.java:98-108 | the same client pairs given in another order, or repeated, build equal options |
| `Game.Equals` | ocraft-s2client-protocol/src/main/java/com/github/ocraft/s2client/protocol/game/MultiplayerOptions.java:98-108 | two options are equal exactly when the shared port, the server pair and the client pair set are |
| `Game.MissingPartMessages` | ocraft-s2client-protocol/src/test/java/com/github/ocraft/s2client/protocol/game/MultiplayerOptionsTest.java:13-43 | the exception texts are "shared port must be greater than 0", "shared port is required", "server port is required" and "client port list is required" |
| `Game.SharingBuilder.constructor` | ocraft-s2client-protocol/src/main/java/com/github/ocraft/s2client/protocol/game/MultiplayerOptions.java:34-36 | as written: a new builder has no shared port, no server port and a fresh, empty client set object |
| `Game.SharingBuilder.SharedPort` | ocraft-s2client-protocol/src/main/java/com/github/ocraft/s2client/protocol/game/MultiplayerOptions.java:38-43 | as written: a port below 1 fails with "shared port must be greater than 0" and leaves the builder unchanged; any other port is stored |
| `Game.SharingBuilder.ServerPort` | ocraft-s2client-protocol/src/main/java/com/github/ocraft/s2client/protocol/game/MultiplayerOptions.java:45-49 | as written: the server pair is set, overwriting an earlier one |
| `Game.SharingBuilder.ClientPorts` | ocraft-s2client-protocol/src/main/java/com/github/ocraft/s2client/protocol/game/MultiplayerOptions.java:51-55 | as written: the given pairs are added to the client set object the builder shares |
| `Game.SharingBuilder.Build` | ocraft-s2client-protocol/src/main/java/com/github/ocraft/s2client/protocol/game/MultiplayerOptions.java:63-69 | as written: the three checks in order; otherwise the options hold the builder's shared port and server pair and receive the builder's own client set object |
| `Game.SharingOptions.constructor` | ocraft-s2client-protocol/src/main/java/com/github/ocraft/s2client/protocol/game/MultiplayerOptions.java:25-29 | as written: the options keep the very client set object they are given (`clientPorts = builder.clientPorts`) |
| `Game.SharingBuilderLeaks` | ocraft-s2client-protocol/src/main/java/com/github/ocraft/s2client/protocol/game/MultiplayerOptions.java:94-96 | as written: options built with client pair `x` read `{x, y}` from `getClientPorts()` after `y` is added through their builder |
| `Game.BuiltOptionsAreDetached` | ocraft-s2client-protocol/src/main/java/com/github/ocraft/s2client/protocol/game/MultiplayerOptions.java:25-29 | corrected: built options keep the client pairs they were built with when the builder grows afterwards |
| `ObservationRaw.From` | ocraft-s2client-protocol/src/main/java/com/github/ocraft/s2client/protocol/observation/raw/MapState.java:20-33 | fails naming "sc2api map state" on a missing message, then "visibility", then "creep"; succeeds exactly when both layers are present, each slot holding the image decoded from its own wire field |
| `ObservationRaw.MissingCreepReport` | ocraft-s2client-protocol/src/main/java/com/github/ocraft/s2client/protocol/observation/raw/MapState.java:20-28 | with creep missing, the error names "creep" when visibility is present and "visibility" when it is not |
| `ObservationRaw.FromReachesEvery` | ocraft-s2client-protocol/src/main/java/com/github/ocraft/s2client/protocol/observation/raw/MapState.java:20-28 | every snapshot decodes from the message carrying its two encoded layers, with no swap |
| `ObservationRaw.Equals` | ocraft-s2client-protocol/src/main/java/com/github/ocraft/s2client/protocol/observation/raw/MapState.java:43-51 | two snapshots are equal exactly when visibility and creep each are |
| `Response.From` | ocraft-s2client-protocol/src/main/java/com/github/ocraft/s2client/protocol/response/ResponseObservation.java:31-53 | a missing response or payload is rejected, then a missing inner observation fails naming "observation"; otherwise the type is OBSERVATION, the status is the decoded status, and the four lists keep the length and order of their wire lists |
| `Response.FromCarrying` | ocraft-s2client-protocol/src/main/java/com/github/ocraft/s2client/protocol/response/ResponseObservation.java:31-42 | decoding the message that carries an observation response gives that response back, lists in the same order |
| `Response.Equals` | ocraft-s2client-protocol/src/main/java/com/github/ocraft/s2client/protocol/response/ResponseObservation.java:75-89 | two responses are equal exactly when the type, the status and all five fields are, the lists compared in order |

## Findings

| source | as written | input that shows it | evidently intended | confidence | as-written member | corrected member |
|---|---|---|---|---|---|---|
| ocraft-s2client-protocol/src/main/java/com/github/ocraft/s2client/protocol/debug/DebugDraw.java:87-92 | the batch stores the builder's four `ArrayList` objects themselves, not copies | `b.texts(t1); d = b.build(); b.texts(t2);` then `d.getTexts()` is `[t1, t2]` | a built `DebugDraw` is immutable, so it should copy the lists | medium: the adders return the concrete `Builder`, so a caller can go on adding after `build()`; the syntax interfaces are not part of this model; not executed | `Debug.SharingBuilderLeaks` | `Debug.BuiltDrawIsDetached` (with `Debug.Builder.Build`, used by the rest of the model) |
| ocraft-s2client-protocol/src/main/java/com/github/ocraft/s2client/protocol/action/raw/ActionRawUnitCommand.java:95 | the command stores the builder's `HashSet` itself, not a copy | `b = new ActionRawUnitCommand.Builder(); c = b.forUnits(t1).useAbility(a).build(); b.forUnits(t2);` then `c.getUnitTags()` is `{t1, t2}` | a built command is immutable, so it should copy the set | medium: `Builder` is a public class with the default constructor, so no cast is needed; not executed | `ActionRaw.SharingBuilderLeaks` | `ActionRaw.BuiltCommandIsDetached` (with `ActionRaw.Builder.Build`, used by the rest of the model) |
| ocraft-s2client-protocol/src/main/java/com/github/ocraft/s2client/protocol/game/MultiplayerOptions.java:28 | the options store the builder's `HashSet` itself, not a copy | `c = multiplayerSetup().sharedPort(1).serverPort(p); o = c.clientPorts(x).build(); c.clientPorts(y);` then `o.getClientPorts()` is `{x, y}` | built options are immutable, so they should copy the set | medium: the held `ClientPortsSyntax` stage allows the later call; not executed | `Game.SharingBuilderLeaks` | `Game.BuiltOptionsAreDetached` (with `Game.Builder.Build`, used by the rest of the model) |

## Left out

- ActionRaw.ToSc2Api: leaves the order of the written unit tags unspecified. The code writes them in `HashSet` iteration order, which is not visible. For the same reason the function is ghost.
- `hashCode`, `toString` and `serialVersionUID` are not modelled. They are int-overflow arithmetic and JSON printing, with no contract.
- The staged `*Syntax` interfaces are not part of this model. Every builder step can be called in any order; the run-time checks in `build()` are modelled.
- The nested-builder adder overloads of `DebugDraw.Builder` (`texts(DebugTextBuilder...)` and its three siblings) are not modelled separately. They build each primitive with `BuilderSyntax.buildAll` and then append exactly like `Debug.Builder.Texts` and its siblings.
- The conversions of nested types (`Abilities::from`, `Tag`, `Point2d`, `ImageData`, `Action`, `ActionError`, `Observation`, `PlayerResult`, `ChatReceived`, `GameStatus`, the debug primitives) are parameters, because their classes are not part of this model. Floating-point coordinates are abstract values with equality only.
- The ability lookup is total. What `Abilities::from` does with an unknown identifier is not part of this model.
- `Response.java` (the base class) is not part of this model. The base response is reduced to its type tag and status, and the other response kinds are one `OtherKind` tag.
- `PortSet.java` is not part of this model. A port pair is a plain pair of integers with no validation of its own.
- Java `int` overflow in `multiplayerSetupFor` is excluded by a precondition that keeps `portStart + 3 + 2 * playerCount` within the `int` range.
- Java `null` passed to a builder step (`useAbility(null)`, `serverPort(null)`) has no counterpart: Dafny values are never null.
- The getters that return fresh copies of the lists and sets need no model in the corrected classes: Dafny sequences and sets are values, so a stored collection can never change after construction.
- The text of the `oneOfIsNotEmpty` error is not part of this model; only its kind and its field name ("draw elements") are.
- The as-written builders (`SharingBuilder` in `ActionRaw`, `Debug` and `Game`) write out only the steps their findings need: the unit and ability steps, the text adder, and the port steps. The other steps set plain fields or append to their own lists as in the corrected builders.
