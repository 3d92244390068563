/**
 * The condition evaluator of scripts/main.js: `_getAttributeValue` and
 * `_evaluateCondition`. Only the always, weapon, status and attribute kinds
 * are evaluated; every other kind evaluates to false.
 */
module Conditions {
  import opened Wrappers
  import opened Sequences
  import opened Definitions
  import opened Actors

  /** The `{ self, target, action }` argument; `actionItem` is `action?.item`. */
  datatype EvalContext = EvalContext(self: Actor, target: Option<Actor>, actionItem: Option<Item>)

  /**
   * `p` is `Math.round(v / m * 100)` computed exactly: the nearest integer to
   * 100 * v / m, halves rounded up (towards positive infinity).
   */
  ghost predicate RoundsTo(p: int, v: int, m: int)
    requires m != 0
  {
    var a := if m > 0 then 200 * v else -200 * v;
    var b := if m > 0 then m else -m;
    (2 * p - 1) * b <= a < (2 * p + 1) * b
  }

  lemma MulLess(x: int, y: int, b: int)
    requires b > 0 && x * b < y * b
    ensures x < y
  {
  }

  /** At most one integer satisfies `RoundsTo`, so it pins the percentage down. */
  lemma RoundsToUnique(p: int, q: int, v: int, m: int)
    requires m != 0 && RoundsTo(p, v, m) && RoundsTo(q, v, m)
    ensures p == q
  {
    var b := if m > 0 then m else -m;
    MulLess(2 * p - 1, 2 * q + 1, b);
    MulLess(2 * q - 1, 2 * p + 1, b);
  }

  /** `Math.round((value / max) * 100)` on exact rationals. */
  function RoundedPercent(v: int, m: int): (p: int)
    requires m != 0
    ensures RoundsTo(p, v, m)
  {
    var num := if m > 0 then 200 * v + m else -200 * v - m;
    var den := if m > 0 then 2 * m else -2 * m;
    var p := num / den;
    assert den * p <= num < den * p + den;
    assert (2 * p - 1) * (den / 2) == den * p - den / 2;
    assert (2 * p + 1) * (den / 2) == den * p + den / 2;
    p
  }

  /**
   * The `*_pct` attributes: no value unless `max` is set and non-zero. A
   * `value` that is present but `null` divides as 0; a missing one divides to
   * `NaN`, which no comparison accepts and which is modelled as none.
   */
  function Percentage(res: Option<Resource>): (r: Option<int>)
    ensures r.None? <==> res.None? || res.value.max.None? || res.value.max == Some(0) || res.value.value.MissingField?
    ensures r.Some? ==> RoundsTo(r.value, res.value.value.Read().GetOr(0), res.value.max.value)
    ensures r.Some? && res.value.value.Read().GetOr(0) == 0 ==> r == Some(0)
  {
    if res.None? || res.value.max.None? || res.value.max.value == 0 || res.value.value.MissingField? then None
    else
      var m := res.value.max.value;
      var v := res.value.value.Read().GetOr(0);
      var p := RoundedPercent(v, m);
      if v == 0 then
        RoundsToUnique(p, 0, 0, m);
        Some(p)
      else Some(p)
  }

  function ValueOf(res: Option<Resource>): Option<int> {
    if res.Some? then res.value.value.Read() else None
  }

  /** The resource a percentage attribute is taken of. */
  function PercentResource(s: ActorSystem, id: AttributeId): Option<Resource>
    requires id == HopePct || id == StressPct || id == HitPointsPct
  {
    match id
    case HopePct => s.hope
    case StressPct => s.stress
    case HitPointsPct => s.hitPoints
  }

  /** `_getAttributeValue`; `None` stands for the source's `null`. */
  function GetAttributeValue(actor: Actor, id: AttributeId): (r: Option<int>)
    ensures id.UnknownAttribute? ==> r.None?
    ensures id == HopePct || id == StressPct || id == HitPointsPct ==>
              var res := PercentResource(actor.system, id);
              && (r.None? <==> res.None? || res.value.max.None? || res.value.max == Some(0) || res.value.value.MissingField?)
              && (r.Some? ==> RoundsTo(r.value, res.value.value.Read().GetOr(0), res.value.max.value))
              && (r.Some? && res.value.value.Read().GetOr(0) == 0 ==> r == Some(0))
    ensures id.TraitScore? ==> (r.Some? <==> id.which in actor.system.traits)
    ensures id.TraitScore? && id.which in actor.system.traits ==> r == Some(actor.system.traits[id.which])
    ensures id == Hope ==> r == ValueOf(actor.system.hope)
    ensures id == Stress ==> r == ValueOf(actor.system.stress)
    ensures id == HitPoints ==> r == ValueOf(actor.system.hitPoints)
    ensures id == HitPointsMax ==> r == (if actor.system.hitPoints.Some? then actor.system.hitPoints.value.max else None)
    ensures id == Evasion ==> r == actor.system.evasion.Read()
    ensures id == Proficiency ==> r == actor.system.proficiency
    ensures id == ArmorScore ==>
              r == (if ValueOf(actor.system.armor).Some? then ValueOf(actor.system.armor) else actor.system.armorScore)
  {
    var s := actor.system;
    match id
    case Hope => ValueOf(s.hope)
    case HopePct => Percentage(s.hope)
    case Stress => ValueOf(s.stress)
    case StressPct => Percentage(s.stress)
    case HitPoints => ValueOf(s.hitPoints)
    case HitPointsMax => if s.hitPoints.Some? then s.hitPoints.value.max else None
    case HitPointsPct => Percentage(s.hitPoints)
    case Evasion => s.evasion.Read()
    case Proficiency => s.proficiency
    case ArmorScore => if ValueOf(s.armor).Some? then ValueOf(s.armor) else s.armorScore
    case TraitScore(t) => if t in s.traits then Some(s.traits[t]) else None
    case UnknownAttribute(_) => None
  }

  /** The five comparison operators; any other operator text compares false. */
  predicate Compare(op: Operator, value: int, threshold: int) {
    match op
    case AtLeast => value >= threshold
    case AtMost => value <= threshold
    case EqualTo => value == threshold
    case GreaterThan => value > threshold
    case LessThan => value < threshold
    case UnknownOperator(_) => false
  }

  /** The actor's equipped weapons in item order. */
  function EquippedWeapons(items: seq<Item>): seq<Item> {
    Filter(items, (i: Item) => i.itemType == WeaponItem && i.equipped)
  }

  /** `Array.prototype.indexOf`: the first position of `x`, or -1. */
  function IndexOf(s: seq<Item>, x: Item): (r: int)
    ensures -1 <= r < |s|
    ensures r == -1 <==> x !in s
    ensures r >= 0 ==> s[r] == x && forall j :: 0 <= j < r ==> s[j] != x
  {
    if s == [] then -1
    else if s[0] == x then 0
    else
      var k := IndexOf(s[1..], x);
      if k == -1 then -1 else k + 1
  }

  /** The actor a subject-bearing condition is about; the target may be missing. */
  function SubjectOf(c: Condition, ctx: EvalContext): Option<Actor> {
    if c.subject == TargetSubject then ctx.target else Some(ctx.self)
  }

  /** The kinds the evaluator decides; the rest always evaluate to false. */
  predicate IsEvaluatedKind(k: ConditionType) {
    k == AlwaysCondition || k == WeaponCondition || k == StatusCondition || k == AttributeCondition
  }

  /** `_evaluateCondition`. */
  function EvaluateCondition(c: Condition, ctx: EvalContext): (r: bool)
    ensures c.kind == AlwaysCondition ==> r
    ensures r ==> IsEvaluatedKind(c.kind)
    ensures c.kind == WeaponCondition && (c.weaponSlot == "any" || ctx.actionItem.None?) ==> r
    ensures c.kind == WeaponCondition && c.weaponSlot == "primary" && ctx.actionItem.Some? ==>
              var eq := EquippedWeapons(ctx.self.items);
              (r <==> |eq| > 0 && eq[0] == ctx.actionItem.value)
    ensures c.kind == WeaponCondition && c.weaponSlot == "secondary" && ctx.actionItem.Some? ==>
              var eq := EquippedWeapons(ctx.self.items);
              (r <==> |eq| > 1 && eq[0] != ctx.actionItem.value && eq[1] == ctx.actionItem.value)
    ensures c.kind == WeaponCondition && c.weaponSlot != "primary" && c.weaponSlot != "secondary" ==> r
    ensures c.kind != AlwaysCondition && c.kind != WeaponCondition && SubjectOf(c, ctx).None? ==> !r
    ensures c.kind == StatusCondition ==>
              (r <==> SubjectOf(c, ctx).Some? && c.status in SubjectOf(c, ctx).value.statuses)
    ensures c.kind == AttributeCondition && r ==>
              SubjectOf(c, ctx).Some? && GetAttributeValue(SubjectOf(c, ctx).value, c.attribute).Some?
              && !c.operator.UnknownOperator?
    ensures c.kind == AttributeCondition && SubjectOf(c, ctx).Some?
            && GetAttributeValue(SubjectOf(c, ctx).value, c.attribute).Some? ==>
              (r <==> Compare(c.operator, GetAttributeValue(SubjectOf(c, ctx).value, c.attribute).value, c.value))
  {
    if c.kind == AlwaysCondition then true
    else if c.kind == WeaponCondition then
      if c.weaponSlot == "any" then true
      else if ctx.actionItem.None? then true
      else
        var slot := IndexOf(EquippedWeapons(ctx.self.items), ctx.actionItem.value);
        if c.weaponSlot == "primary" then slot == 0
        else if c.weaponSlot == "secondary" then slot == 1
        else true
    else
      var subject := SubjectOf(c, ctx);
      if subject.None? then false
      else if c.kind == StatusCondition then c.status in subject.value.statuses
      else if c.kind == AttributeCondition then
        var value := GetAttributeValue(subject.value, c.attribute);
        if value.None? then false else Compare(c.operator, value.value, c.value)
      else false
  }

  /** A weapon condition never holds for both slots at once. */
  lemma WeaponSlotsExclusive(c: Condition, d: Condition, ctx: EvalContext)
    requires c.kind == WeaponCondition && c.weaponSlot == "primary"
    requires d.kind == WeaponCondition && d.weaponSlot == "secondary"
    requires ctx.actionItem.Some?
    ensures !(EvaluateCondition(c, ctx) && EvaluateCondition(d, ctx))
  {
  }

  /**
   * A percentage condition on a resource with a non-zero `max` and no value
   * compares 0 when the `value` key holds `null`, and never holds when the key
   * is missing.
   */
  lemma UnsetValuePercentCondition(c: Condition, ctx: EvalContext)
    requires c.kind == AttributeCondition && (c.attribute == HopePct || c.attribute == StressPct || c.attribute == HitPointsPct)
    requires SubjectOf(c, ctx).Some?
    requires PercentResource(SubjectOf(c, ctx).value.system, c.attribute).Some?
    requires PercentResource(SubjectOf(c, ctx).value.system, c.attribute).value.max.Some?
    requires PercentResource(SubjectOf(c, ctx).value.system, c.attribute).value.max.value != 0
    requires PercentResource(SubjectOf(c, ctx).value.system, c.attribute).value.value.Read().None?
    ensures EvaluateCondition(c, ctx) <==>
              PercentResource(SubjectOf(c, ctx).value.system, c.attribute).value.value.PresentField?
              && Compare(c.operator, 0, c.value)
  {
  }

  /** A percentage attribute of a full resource is 100, of an empty one 0. */
  lemma PercentageOfFullAndEmpty(max: int)
    requires max != 0
    ensures Percentage(Some(Resource(PresentField(Some(max)), Some(max)))) == Some(100)
    ensures Percentage(Some(Resource(PresentField(Some(0)), Some(max)))) == Some(0)
  {
    var p := Percentage(Some(Resource(PresentField(Some(max)), Some(max)))).value;
    var b := if max > 0 then max else -max;
    assert (2 * 100 - 1) * b <= 200 * b < (2 * 100 + 1) * b;
    RoundsToUnique(p, 100, max, max);
  }
}
