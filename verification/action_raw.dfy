/** `ActionRawUnitCommand`: a command for a group of units, its staged
    builder, its decoder from the wire message `Raw.ActionRawUnitCommand`
    and its encoder back to that message. */
module ActionRaw {
  import opened Wrappers
  import opened Errors
  import opened Collections

  /** The ability a command uses (an entry of the `Abilities` table). */
  type Ability(==, !new)
  /** A unit tag, the opaque identifier of a unit. */
  type Tag(==, !new)
  /** A position on the map (two floating-point coordinates). */
  type Point2d(==, !new)
  /** A unit as the game reports it; the command only uses its tag. */
  type Unit(==)
  /** The wire form of a position (`Common.Point2D`). */
  type WirePoint2d(==, !new)

  /** The wire form of an ability (`ability_id`, an int32). */
  type WireAbilityId = int
  /** The wire form of a unit tag (`unit_tags`, a uint64). */
  type WireTag = int

  /** The conversions of the nested types, which belong to other classes:
      `Abilities::from`, `Ability::toSc2Api`, `Tag::from`, `Tag::toSc2Api`,
      `Point2d::from`, `Point2d::toSc2Api`. */
  datatype Converters = Converters(
    abilityFrom: WireAbilityId -> Ability,
    abilityToSc2Api: Ability -> WireAbilityId,
    tagFrom: WireTag -> Tag,
    tagToSc2Api: Tag -> WireTag,
    pointFrom: WirePoint2d -> Point2d,
    pointToSc2Api: Point2d -> WirePoint2d)

  /** The assumption under which encoding can be undone: each nested
      decoder inverts the matching encoder. */
  ghost predicate Inverts(c: Converters) {
    && (forall a :: c.abilityFrom(c.abilityToSc2Api(a)) == a)
    && (forall t :: c.tagFrom(c.tagToSc2Api(t)) == t)
    && (forall p :: c.pointFrom(c.pointToSc2Api(p)) == p)
  }

  /** The wire message: every singular field may be absent, `unit_tags` is a
      repeated field. */
  datatype WireUnitCommand = WireUnitCommand(
    abilityId: Option<WireAbilityId>,
    targetUnitTag: Option<WireTag>,
    targetWorldSpacePos: Option<WirePoint2d>,
    unitTags: seq<WireTag>,
    queueCommand: Option<bool>)

  /** The immutable command. The unit tags form a set: order and repeats
      carry no meaning. */
  datatype ActionRawUnitCommand = ActionRawUnitCommand(
    ability: Ability,
    targetedUnitTag: Option<Tag>,
    targetedWorldSpacePosition: Option<Point2d>,
    unitTags: set<Tag>,
    queued: bool)

  predicate AtMostOneTarget(cmd: ActionRawUnitCommand) {
    !(cmd.targetedUnitTag.Some? && cmd.targetedWorldSpacePosition.Some?)
  }

  /** The staged builder: forUnits, then useAbility, then optionally a
      target and `queued()`, then `build()`. The stages are enforced by
      interfaces in the Java library; here every step is callable and `Build`
      carries the run-time checks. */
  class Builder {
    var ability: Option<Ability>
    var targetedUnitTag: Option<Tag>
    var targetedWorldSpacePosition: Option<Point2d>
    var unitTags: set<Tag>
    var queued: bool

    /** The two target setters clear each other, so at most one is set: the
        builder-side form of `AtMostOneTarget`, which `Build` hands on to the
        command it returns. */
    ghost predicate Valid()
      reads this
    {
      !(targetedUnitTag.Some? && targetedWorldSpacePosition.Some?)
    }

    /** `unitCommand()`: nothing chosen yet, not queued. */
    constructor ()
      ensures Valid()
      ensures ability == None && unitTags == {} && !queued
      ensures targetedUnitTag == None && targetedWorldSpacePosition == None
    {
      ability := None;
      targetedUnitTag := None;
      targetedWorldSpacePosition := None;
      unitTags := {};
      queued := false;
    }

    /** `forUnits(Tag...)`: adds the tags to those already chosen. */
    method ForUnitTags(units: seq<Tag>)
      requires Valid()
      modifies this`unitTags
      ensures Valid()
      ensures unitTags == old(unitTags) + set u | u in units
    {
      unitTags := unitTags + set u | u in units;
    }

    /** `forUnits(Unit...)`: adds the tags of the units. */
    method ForUnits(units: seq<Unit>, getTag: Unit -> Tag)
      requires Valid()
      modifies this`unitTags
      ensures Valid()
      ensures unitTags == old(unitTags) + MapToSet(units, getTag)
    {
      unitTags := unitTags + MapToSet(units, getTag);
    }

    /** `useAbility(ability)`: a later call overwrites an earlier one. */
    method UseAbility(a: Ability)
      requires Valid()
      modifies this`ability
      ensures Valid()
      ensures ability == Some(a)
    {
      ability := Some(a);
    }

    /** `target(Tag)`: targets a unit and forgets any position target. */
    method TargetUnit(t: Tag)
      requires Valid()
      modifies this`targetedUnitTag, this`targetedWorldSpacePosition
      ensures Valid()
      ensures targetedUnitTag == Some(t) && targetedWorldSpacePosition == None
    {
      targetedUnitTag := Some(t);
      targetedWorldSpacePosition := None;
    }

    /** `target(Point2d)`: targets a position and forgets any unit target. */
    method TargetWorldSpacePosition(p: Point2d)
      requires Valid()
      modifies this`targetedUnitTag, this`targetedWorldSpacePosition
      ensures Valid()
      ensures targetedWorldSpacePosition == Some(p) && targetedUnitTag == None
    {
      targetedWorldSpacePosition := Some(p);
      targetedUnitTag := None;
    }

    /** `queued()`: the command is queued behind the units' current orders. */
    method Queued()
      requires Valid()
      modifies this`queued
      ensures Valid()
      ensures queued
    {
      queued := true;
    }

    /** `build()`: the ability is checked before the unit tags; a built
        command holds exactly the builder's fields. */
    method Build() returns (r: Result<ActionRawUnitCommand, Error>)
      requires Valid()
      ensures ability.None? ==> r == Failure(Required("ability id"))
      ensures ability.Some? && unitTags == {} ==> r == Failure(Required("unit tag list"))
      ensures r.Success? <==> ability.Some? && unitTags != {}
      ensures r.Success? ==>
        r.value == ActionRawUnitCommand(ability.value, targetedUnitTag, targetedWorldSpacePosition, unitTags, queued)
      ensures r.Success? ==> AtMostOneTarget(r.value) && r.value.unitTags != {}
    {
      if ability.None? {
        return Failure(Required("ability id"));
      }
      if unitTags == {} {
        return Failure(Required("unit tag list"));
      }
      r := Success(ActionRawUnitCommand(ability.value, targetedUnitTag, targetedWorldSpacePosition, unitTags, queued));
    }
  }

  /** The smallest complete use of the builder: `build()` before an ability
      is chosen fails naming "ability id"; with an ability and one unit it
      succeeds with no target and not queued. */
  method BuildWithoutTarget(a: Ability, t: Tag) returns (early: Result<ActionRawUnitCommand, Error>, done: Result<ActionRawUnitCommand, Error>)
    ensures early == Failure(Required("ability id"))
    ensures done == Success(ActionRawUnitCommand(a, None, None, {t}, false))
  {
    var b := new Builder();
    b.ForUnitTags([t]);
    assert (set u | u in [t]) == {t};
    early := b.Build();
    b.UseAbility(a);
    assert b.unitTags == {t};
    done := b.Build();
  }

  /** Targets set in sequence: the last one wins and the other is cleared. */
  method LastTargetWins(a: Ability, t: Tag, p: Point2d) returns (byUnit: Result<ActionRawUnitCommand, Error>, byPosition: Result<ActionRawUnitCommand, Error>)
    ensures byUnit == Success(ActionRawUnitCommand(a, Some(t), None, {t}, true))
    ensures byPosition == Success(ActionRawUnitCommand(a, None, Some(p), {t}, true))
  {
    var b := new Builder();
    b.ForUnitTags([t, t]);
    assert (set u | u in [t, t]) == {t};
    b.UseAbility(a);
    b.TargetWorldSpacePosition(p);
    b.TargetUnit(t);
    b.Queued();
    assert b.unitTags == {t};
    byUnit := b.Build();
    b.TargetWorldSpacePosition(p);
    byPosition := b.Build();
  }

  /** `from(message)`: a missing message, a missing ability id and an empty
      unit-tag list fail, in that order; an absent queue flag reads as false
      and absent target fields as no target. Both target fields are kept
      when both are present. */
  function From(m: Option<WireUnitCommand>, c: Converters): (r: Result<ActionRawUnitCommand, Error>)
    ensures m.None? ==> r == Failure(Required("sc2api action raw unit command"))
    ensures m.Some? && m.value.abilityId.None? ==> r == Failure(Required("ability id"))
    ensures m.Some? && m.value.abilityId.Some? && m.value.unitTags == [] ==> r == Failure(Required("unit tag list"))
    ensures r.Success? <==> m.Some? && m.value.abilityId.Some? && m.value.unitTags != []
    ensures r.Success? ==> r.value.ability == c.abilityFrom(m.value.abilityId.value)
    ensures r.Success? ==> r.value.queued == (m.value.queueCommand == Some(true))
    ensures r.Success? ==>
      && (r.value.targetedUnitTag.Some? <==> m.value.targetUnitTag.Some?)
      && (r.value.targetedUnitTag.Some? ==> r.value.targetedUnitTag.value == c.tagFrom(m.value.targetUnitTag.value))
    ensures r.Success? ==>
      && (r.value.targetedWorldSpacePosition.Some? <==> m.value.targetWorldSpacePos.Some?)
      && (r.value.targetedWorldSpacePosition.Some? ==>
            r.value.targetedWorldSpacePosition.value == c.pointFrom(m.value.targetWorldSpacePos.value))
    ensures r.Success? ==> forall i :: 0 <= i < |m.value.unitTags| ==> c.tagFrom(m.value.unitTags[i]) in r.value.unitTags
    ensures r.Success? ==>
      forall t :: t in r.value.unitTags ==> exists i :: 0 <= i < |m.value.unitTags| && c.tagFrom(m.value.unitTags[i]) == t
  {
    if m.None? then Failure(Required("sc2api action raw unit command"))
    else
      var w := m.value;
      if w.abilityId.None? then Failure(Required("ability id"))
      else
        var tags := MapToSet(w.unitTags, c.tagFrom);
        if tags == {} then Failure(Required("unit tag list"))
        else
          Success(ActionRawUnitCommand(
            c.abilityFrom(w.abilityId.value),
            w.targetUnitTag.Map(c.tagFrom),
            w.targetWorldSpacePos.Map(c.pointFrom),
            tags,
            w.queueCommand.GetOr(false)))
  }

  /** `toSc2Api()`: the ability, the unit tags and the queue flag are always
      written; each target field only when present. The tags are written
      once each, in the unspecified order of the set. */
  ghost function ToSc2Api(cmd: ActionRawUnitCommand, c: Converters): (w: WireUnitCommand)
    ensures w.abilityId == Some(c.abilityToSc2Api(cmd.ability))
    ensures w.queueCommand == Some(cmd.queued)
    ensures w.targetUnitTag.Some? <==> cmd.targetedUnitTag.Some?
    ensures w.targetUnitTag.Some? ==> w.targetUnitTag.value == c.tagToSc2Api(cmd.targetedUnitTag.value)
    ensures w.targetWorldSpacePos.Some? <==> cmd.targetedWorldSpacePosition.Some?
    ensures w.targetWorldSpacePos.Some? ==>
      w.targetWorldSpacePos.value == c.pointToSc2Api(cmd.targetedWorldSpacePosition.value)
    ensures forall t :: t in cmd.unitTags ==> c.tagToSc2Api(t) in w.unitTags
    ensures forall i :: 0 <= i < |w.unitTags| ==> exists t :: t in cmd.unitTags && c.tagToSc2Api(t) == w.unitTags[i]
    ensures forall i, j :: 0 <= i < j < |w.unitTags| ==> w.unitTags[i] != w.unitTags[j]
  {
    WireUnitCommand(
      Some(c.abilityToSc2Api(cmd.ability)),
      cmd.targetedUnitTag.Map(c.tagToSc2Api),
      cmd.targetedWorldSpacePosition.Map(c.pointToSc2Api),
      SetToSeq(set t | t in cmd.unitTags :: c.tagToSc2Api(t)),
      Some(cmd.queued))
  }

  /** Decoding the encoding of a command with at least one unit gives the
      command back, when the nested decoders invert the nested encoders. */
  lemma RoundTrip(cmd: ActionRawUnitCommand, c: Converters)
    requires Inverts(c)
    requires cmd.unitTags != {}
    ensures From(Some(ToSc2Api(cmd, c)), c) == Success(cmd)
  {
    var w := ToSc2Api(cmd, c);
    var tags := MapToSet(w.unitTags, c.tagFrom);
    forall t | t in cmd.unitTags
      ensures t in tags
    {
      var i :| 0 <= i < |w.unitTags| && w.unitTags[i] == c.tagToSc2Api(t);
      assert c.tagFrom(w.unitTags[i]) == t;
    }
    forall t | t in tags
      ensures t in cmd.unitTags
    {
      var i :| 0 <= i < |w.unitTags| && c.tagFrom(w.unitTags[i]) == t;
      var u :| u in cmd.unitTags && c.tagToSc2Api(u) == w.unitTags[i];
      assert c.tagFrom(c.tagToSc2Api(u)) == u;
    }
    assert tags == cmd.unitTags;
  }

  /** Re-encoding a decoded message keeps which target fields are present,
      and always writes the queue flag, as false when it was absent. */
  lemma ReencodingKeepsPresence(m: WireUnitCommand, c: Converters)
    requires From(Some(m), c).Success?
    ensures ToSc2Api(From(Some(m), c).value, c).abilityId.Some?
    ensures ToSc2Api(From(Some(m), c).value, c).targetUnitTag.Some? <==> m.targetUnitTag.Some?
    ensures ToSc2Api(From(Some(m), c).value, c).targetWorldSpacePos.Some? <==> m.targetWorldSpacePos.Some?
    ensures ToSc2Api(From(Some(m), c).value, c).queueCommand == Some(m.queueCommand == Some(true))
  {
  }

  /** `equals`: all five fields, the unit tags compared as sets. */
  function Equals(a: ActionRawUnitCommand, b: ActionRawUnitCommand): (r: bool)
    ensures r <==> a == b
  {
    && a.queued == b.queued
    && a.ability == b.ability
    && a.targetedUnitTag == b.targetedUnitTag
    && a.targetedWorldSpacePosition == b.targetedWorldSpacePosition
    && a.unitTags == b.unitTags
  }

  /** The builder as the source writes it: the unit tags are a set object,
      and `build()` hands that very object to the command
      (`unitTags = builder.unitTags`). Only the unit and ability steps are
      written out; the target and queue steps set plain fields as in
      `Builder`. */
  class SharingBuilder {
    var ability: Option<Ability>
    const unitTags: HashSet<Tag>

    constructor ()
      ensures ability == None
      ensures fresh(unitTags) && unitTags.elements == {}
    {
      ability := None;
      unitTags := new HashSet();
    }

    method ForUnitTags(units: seq<Tag>)
      modifies unitTags
      ensures unitTags.elements == old(unitTags.elements) + set u | u in units
    {
      unitTags.AddAll(units);
    }

    method UseAbility(a: Ability)
      modifies this`ability
      ensures ability == Some(a)
    {
      ability := Some(a);
    }

    method Build() returns (r: Result<SharingCommand, Error>)
      ensures ability.None? ==> r == Failure(Required("ability id"))
      ensures ability.Some? && unitTags.elements == {} ==> r == Failure(Required("unit tag list"))
      ensures r.Success? <==> ability.Some? && unitTags.elements != {}
      ensures r.Success? ==> fresh(r.value) && r.value.ability == ability.value && r.value.unitTags == unitTags
    {
      if ability.None? {
        return Failure(Required("ability id"));
      }
      if unitTags.elements == {} {
        return Failure(Required("unit tag list"));
      }
      var c := new SharingCommand(ability.value, unitTags);
      r := Success(c);
    }
  }

  /** The command as the source writes it: it keeps the builder's set. */
  class SharingCommand {
    const ability: Ability
    const unitTags: HashSet<Tag>

    constructor (ability: Ability, unitTags: HashSet<Tag>)
      ensures this.ability == ability && this.unitTags == unitTags
    {
      this.ability, this.unitTags := ability, unitTags;
    }

    /** `getUnitTags()`: a copy of the set as it is now. */
    function GetUnitTags(): (r: set<Tag>)
      reads unitTags
    {
      unitTags.elements
    }
  }

  /** As written, a command changes after it was built: a unit added
      through the builder afterwards is also commanded. */
  method SharingBuilderLeaks(a: Ability, t1: Tag, t2: Tag) returns (atBuild: set<Tag>, afterAdd: set<Tag>)
    ensures atBuild == {t1}
    ensures afterAdd == {t1, t2}
  {
    var b := new SharingBuilder();
    b.ForUnitTags([t1]);
    b.UseAbility(a);
    assert t1 in b.unitTags.elements;
    var r := b.Build();
    var c := r.value;
    atBuild := c.GetUnitTags();
    b.ForUnitTags([t2]);
    afterAdd := c.GetUnitTags();
  }

  /** With the builder's set copied into the command, a built command keeps
      the units it was built with. */
  method BuiltCommandIsDetached(a: Ability, t1: Tag, t2: Tag) returns (atBuild: set<Tag>, afterAdd: set<Tag>)
    ensures atBuild == {t1}
    ensures afterAdd == {t1}
  {
    var b := new Builder();
    b.ForUnitTags([t1]);
    b.UseAbility(a);
    assert t1 in b.unitTags;
    var r := b.Build();
    atBuild := r.value.unitTags;
    b.ForUnitTags([t2]);
    afterAdd := r.value.unitTags;
  }
}
