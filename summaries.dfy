/**
 * The one-line summaries the manager lists for each effect
 * (scripts/config.js `summarizeCondition` and `summarizeEffect`), with the
 * label tables they look identifiers up in. An identifier missing from its
 * table is shown as it is.
 */
module Summaries {
  import opened Wrappers
  import opened Strings
  import opened Definitions

  /** The summary of a missing condition or effect, or of an unknown type. */
  const EM_DASH: string := "\U{2014}"

  const STATUSES: seq<(string, string)> := [
    ("dead", "Dead"), ("deathMove", "Death Move"), ("defeated", "Defeated"), ("hidden", "Hidden"),
    ("restrained", "Restrained"), ("unconscious", "Unconscious"), ("vulnerable", "Vulnerable"),
    ("bleeding", "Bleeding"), ("bless", "Blessed"), ("blind", "Blind"), ("burning", "Burning"),
    ("burrow", "Burrowing"), ("coldShield", "Ice Shield"), ("corrode", "Corroding"), ("curse", "Cursed"),
    ("deaf", "Deaf"), ("degen", "Degenerating"), ("disease", "Diseased"), ("downgrade", "Weakened"),
    ("eye", "Marked"), ("fear", "Frightened"), ("fireShield", "Fire Shield"), ("fly", "Flying"),
    ("frozen", "Frozen"), ("holyShield", "Holy Shield"), ("hover", "Hovering"), ("invisible", "Invisible"),
    ("magicShield", "Magic Shield"), ("paralysis", "Paralyzed"), ("poison", "Poisoned"), ("prone", "Prone"),
    ("regen", "Regenerating"), ("restrain", "Restrained (Core)"), ("shock", "Shocked"),
    ("silence", "Silenced"), ("sleep", "Asleep"), ("stun", "Stunned"), ("target", "Targeted"),
    ("upgrade", "Empowered")]

  const ATTRIBUTES: seq<(string, string)> := [
    ("hope", "Hope (current)"), ("hope_pct", "Hope (% of max)"),
    ("stress", "Stress (current)"), ("stress_pct", "Stress (% of max)"),
    ("hitPoints", "Hit Points (current)"), ("hitPoints_max", "Hit Points (max)"),
    ("hitPoints_pct", "Hit Points (% of max)"), ("evasion", "Evasion"), ("proficiency", "Proficiency"),
    ("armorScore", "Armor Score"), ("agility", "Agility"), ("strength", "Strength"),
    ("finesse", "Finesse"), ("instinct", "Instinct"), ("presence", "Presence"), ("knowledge", "Knowledge")]

  const DAMAGE_THRESHOLDS: seq<(string, string)> := [("minor", "Minor"), ("major", "Major"), ("severe", "Severe")]

  const DAMAGE_TYPES: seq<(string, string)> := [
    ("physical", "Physical"), ("magical", "Magical"), ("primaryWeapon", "Primary Weapon"),
    ("secondaryWeapon", "Secondary Weapon"), ("any", "Any (physical + magical)")]

  const INCOMING_DAMAGE_TYPES: seq<(string, string)> := [("physical", "Physical"), ("magical", "Magical"), ("any", "Any")]

  const RANGE_TYPES: seq<(string, string)> := [
    ("melee", "Melee"), ("veryClose", "Very Close"), ("close", "Close"), ("far", "Far"), ("veryFar", "Very Far")]

  const RANGE_MODES: seq<(string, string)> := [
    ("within", "Within Range (at or closer)"), ("at", "At Range (exact band)"), ("beyond", "Further Than")]

  const WEAPON_SLOTS: seq<(string, string)> := [("primary", "Primary"), ("secondary", "Secondary"), ("any", "Any")]

  const TRAITS: seq<(string, string)> := [
    ("any", "Any Trait"), ("agility", "Agility"), ("strength", "Strength"), ("finesse", "Finesse"),
    ("instinct", "Instinct"), ("presence", "Presence"), ("knowledge", "Knowledge")]

  const ACTION_ROLL_TYPES: seq<(string, string)> := [("any", "Any Roll"), ("action", "Action Roll"), ("reaction", "Reaction Roll")]

  /** `table.find(t => t.id === id)?.label`: the label of the first entry with that ID. */
  function LabelOf(table: seq<(string, string)>, id: string): Option<string> {
    if table == [] then None
    else if table[0].0 == id then Some(table[0].1)
    else LabelOf(table[1..], id)
  }

  /** A label is found exactly when some entry has the ID, and it is the first such entry's. */
  lemma {:induction false} LabelOfSpec(table: seq<(string, string)>, id: string)
    ensures LabelOf(table, id).None? <==> forall i :: 0 <= i < |table| ==> table[i].0 != id
    ensures LabelOf(table, id).Some? ==>
              exists i :: 0 <= i < |table| && table[i] == (id, LabelOf(table, id).value)
                          && forall j :: 0 <= j < i ==> table[j].0 != id
  {
    if table != [] && table[0].0 != id {
      LabelOfSpec(table[1..], id);
      var r := LabelOf(table[1..], id);
      if r.Some? {
        var i :| 0 <= i < |table| - 1 && table[1..][i] == (id, r.value)
                 && forall j :: 0 <= j < i ==> table[1..][j].0 != id;
        assert table[i + 1] == (id, r.value);
        assert forall j :: 1 <= j < i + 1 ==> table[j] == table[1..][j - 1];
      } else {
        assert forall i :: 1 <= i < |table| ==> table[i] == table[1..][i - 1];
      }
    }
  }

  /** The label, or the identifier itself when the table has none. */
  function LabelOr(table: seq<(string, string)>, id: string): string {
    LabelOf(table, id).GetOr(id)
  }

  function SubjectLabel(s: Subject): string {
    if s == TargetSubject then "Target" else "Self"
  }

  /** The attribute's identifier as stored in the condition. */
  function AttributeText(id: AttributeId): string {
    match id
    case Hope => "hope"
    case HopePct => "hope_pct"
    case Stress => "stress"
    case StressPct => "stress_pct"
    case HitPoints => "hitPoints"
    case HitPointsMax => "hitPoints_max"
    case HitPointsPct => "hitPoints_pct"
    case Evasion => "evasion"
    case Proficiency => "proficiency"
    case ArmorScore => "armorScore"
    case TraitScore(t) => TraitText(t)
    case UnknownAttribute(s) => s
  }

  function TraitText(t: Trait): string {
    match t
    case Agility => "agility"
    case Strength => "strength"
    case Finesse => "finesse"
    case Instinct => "instinct"
    case Presence => "presence"
    case Knowledge => "knowledge"
  }

  function OperatorText(op: Operator): string {
    match op
    case AtLeast => ">="
    case AtMost => "<="
    case EqualTo => "=="
    case GreaterThan => ">"
    case LessThan => "<"
    case UnknownOperator(s) => s
  }

  /** The condition types whose summary opens with the subject and a colon. */
  predicate ShowsSubjectFirst(k: ConditionType) {
    k == StatusCondition || k == TookThreshold || k == InflictedThreshold || k == RolledFear
    || k == RolledCritical || k == SpentHope || k == ArmorSlotMarked || k == NoArmorRemaining
  }

  /** "<Subject>: <rest>". */
  function SubjectLine(subject: Subject, rest: string): (r: string)
    ensures StartsWith(r, SubjectLabel(subject) + ": ")
  {
    var p := SubjectLabel(subject) + ": ";
    assert (p + rest)[..|p|] == p;
    p + rest
  }

  /** "<Subject> <attribute> <operator> <value>". */
  function AttributeLine(subject: Subject, attribute: string, op: Operator, value: int): (r: string)
    ensures StartsWith(r, SubjectLabel(subject) + " ")
    ensures EndsWith(r, " " + OperatorText(op) + " " + IntToString(value))
  {
    var p := SubjectLabel(subject) + " ";
    var q := " " + OperatorText(op) + " " + IntToString(value);
    var r := p + attribute + q;
    assert r[..|p|] == p;
    assert r[|r| - |q|..] == q;
    r
  }

  /** How a range condition names who must be in range. */
  function RangeWho(c: Condition): string {
    var subj := c.rangeSubject.GetOr("target");
    if subj == "target" then "Target"
    else if subj == "attacker" then "Attacker"
    else IntToString(c.rangeCount.GetOr(1)) + "+ " + (if subj == "friends" then "Friends" else "Enemies")
  }

  /** `summarizeCondition`. */
  function SummarizeCondition(c: Option<Condition>): (r: string)
    ensures |r| > 0
    ensures c.None? || c.value.kind.UnknownCondition? ==> r == EM_DASH
    ensures c.Some? && c.value.kind == AlwaysCondition ==> r == "Always"
  {
    if c.None? then EM_DASH
    else
      var c := c.value;
      match c.kind
      case AlwaysCondition => "Always"
      case StatusCondition => SubjectLine(c.subject, LabelOr(STATUSES, c.status))
      case AttributeCondition =>
        AttributeLine(c.subject, LabelOr(ATTRIBUTES, AttributeText(c.attribute)), c.operator, c.value)
      case RangeCondition =>
        var mode := if LabelOf(RANGE_MODES, c.rangeMode.GetOr("")).Some? && c.rangeMode.Some?
                    then LabelOf(RANGE_MODES, c.rangeMode.value).value
                    else c.rangeMode.GetOr("Within");
        var band := LabelOr(RANGE_TYPES, c.range);
        mode + ": " + band + " " + EM_DASH + " " + RangeWho(c)
      case DamageTypeCondition => "Incoming: " + LabelOr(INCOMING_DAMAGE_TYPES, c.incomingDamageType) + " damage"
      case WeaponCondition => "Slot: " + LabelOr(WEAPON_SLOTS, c.weaponSlot)
      case TookThreshold => SubjectLine(c.subject, "Took " + LabelOr(DAMAGE_THRESHOLDS, c.threshold) + " damage")
      case InflictedThreshold => SubjectLine(c.subject, "Inflicted " + LabelOr(DAMAGE_THRESHOLDS, c.threshold) + " damage")
      case RolledFear => SubjectLine(c.subject, "Rolled with Fear")
      case RolledCritical => SubjectLine(c.subject, "Rolled Critical")
      case SpentHope => SubjectLine(c.subject, "Spent Hope")
      case ArmorSlotMarked => SubjectLine(c.subject, "Marked Armor Slot")
      case NoArmorRemaining => SubjectLine(c.subject, "No Armor Remaining")
      case UnknownCondition(_) => EM_DASH
  }

  /** The qualifiers of a roll effect's summary: a trait and an action-roll filter other than "any". */
  function RollQualifiers(e: Effect): seq<string> {
    (if e.traitFilter != "" && e.traitFilter != "any" then [LabelOr(TRAITS, e.traitFilter)] else [])
    + (if e.actionTypeFilter != "" && e.actionTypeFilter != "any" then [LabelOr(ACTION_ROLL_TYPES, e.actionTypeFilter)] else [])
  }

  /** The flat-bonus text of a damage bonus: "+N", "-N", or nothing for 0. */
  function BonusText(bonus: int): (r: string)
    ensures r == "" <==> bonus == 0
    ensures bonus != 0 ==> ParseSigned(r) == Some(bonus)
  {
    if bonus == 0 then "" else SignedTextRoundTrip(bonus); SignedText(bonus)
  }

  /** "<amount> <type> dmg", with "0" for an empty amount. */
  function DamageLine(amount: string, typeLabel: string): (r: string)
    ensures amount != "" ==> StartsWith(r, amount + " ")
    ensures amount == "" ==> StartsWith(r, "0 ")
    ensures EndsWith(r, " " + typeLabel + " dmg")
  {
    var head := (if amount == "" then "0" else amount) + " ";
    var q := " " + typeLabel + " dmg";
    var r := head + typeLabel + " dmg";
    assert r[..|head|] == head;
    assert r[|r| - |q|..] == q;
    r
  }

  /** `summarizeEffect`. */
  function SummarizeEffect(e: Option<Effect>): (r: string)
    ensures |r| > 0
    ensures e.None? || e.value.kind.UnknownEffect? ==> r == EM_DASH
  {
    if e.None? then EM_DASH
    else
      var e := e.value;
      match e.kind
      case DamageBonus =>
        DamageLine(Trim(e.dice) + BonusText(e.bonus), LabelOr(DAMAGE_TYPES, e.damageType))
      case DamageMultiplier =>
        var dt := if e.incomingDamageType.Some? then LabelOr(INCOMING_DAMAGE_TYPES, e.incomingDamageType.value) else "Any";
        "\U{00D7}" + IntToString(e.damageMultiplier.GetOr(2)) + " " + dt + " damage taken"
      case DamageReduction =>
        "Threshold +" + IntToString(e.thresholdMajor.GetOr(0)) + " major / +" + IntToString(e.thresholdSevere.GetOr(0)) + " severe"
      case DefenseBonus => "Evasion/Difficulty " + SignedText(e.defenseBonus.GetOr(0))
      case StatusOnHit => "Apply: " + LabelOr(STATUSES, e.statusToApply)
      case ApplyStatus => "Status: " + LabelOr(STATUSES, e.applyStatus) + " (while active)"
      case ProficiencyBonus => "Proficiency " + SignedText(e.proficiencyBonus.GetOr(1))
      case StressOnHit => "Apply: " + IntToString(e.stressAmount.GetOr(1)) + " Stress"
      case RollBonus => WithQualifiers("Roll " + SignedText(e.rollBonus), RollQualifiers(e))
      case Advantage => WithQualifiers("Advantage", RollQualifiers(e))
      case Disadvantage => WithQualifiers("Disadvantage", RollQualifiers(e))
      case UnknownEffect(_) => EM_DASH
  }

  /** A damage bonus summary ends with the damage type's label. */
  lemma DamageSummaryShape(e: Effect)
    requires e.kind == DamageBonus
    ensures EndsWith(SummarizeEffect(Some(e)), " " + LabelOr(DAMAGE_TYPES, e.damageType) + " dmg")
  {
  }

  /** A multiplier summary shows the factor, 2 when unset, and ends with "damage taken". */
  lemma MultiplierSummaryShape(e: Effect)
    requires e.kind == DamageMultiplier
    ensures StartsWith(SummarizeEffect(Some(e)), "\U{00D7}" + IntToString(e.damageMultiplier.GetOr(2)) + " ")
    ensures EndsWith(SummarizeEffect(Some(e)), " damage taken")
  {
    var r := SummarizeEffect(Some(e));
    var p := "\U{00D7}" + IntToString(e.damageMultiplier.GetOr(2)) + " ";
    assert r[..|p|] == p;
    var q := " damage taken";
    assert r[|r| - |q|..] == q;
  }

  /** The defense, proficiency and stress summaries, with the defaults of unset amounts (0, 1 and 1). */
  lemma AmountSummaries(e: Effect)
    ensures e.kind == DefenseBonus ==>
              SummarizeEffect(Some(e)) == "Evasion/Difficulty " + SignedText(e.defenseBonus.GetOr(0))
    ensures e.kind == ProficiencyBonus ==>
              SummarizeEffect(Some(e)) == "Proficiency " + SignedText(e.proficiencyBonus.GetOr(1))
    ensures e.kind == StressOnHit ==>
              SummarizeEffect(Some(e)) == "Apply: " + IntToString(e.stressAmount.GetOr(1)) + " Stress"
  {
  }

  /** Roll summaries open with the bonus or the mode and carry qualifiers only for trait or action filters. */
  lemma RollSummaryShape(e: Effect)
    requires e.kind == RollBonus || e.kind == Advantage || e.kind == Disadvantage
    ensures var base := if e.kind == RollBonus then "Roll " + SignedText(e.rollBonus)
                        else if e.kind == Advantage then "Advantage" else "Disadvantage";
            StartsWith(SummarizeEffect(Some(e)), base) && (SummarizeEffect(Some(e)) == base <==> RollQualifiers(e) == [])
  {
  }

  function WithQualifiers(base: string, qualifiers: seq<string>): (r: string)
    ensures StartsWith(r, base) && (r == base <==> qualifiers == [])
  {
    if qualifiers == [] then base
    else
      var r := base + " (" + Join(qualifiers, ", ") + ")";
      assert r[..|base|] == base;
      r
  }

  /** An ID that some entry carries has a label. */
  lemma {:induction false} LabelFoundAt(table: seq<(string, string)>, i: nat, id: string)
    requires i < |table| && table[i].0 == id
    ensures LabelOf(table, id).Some?
  {
    if table[0].0 != id {
      assert table[1..][i - 1] == table[i];
      LabelFoundAt(table[1..], i - 1, id);
    }
  }

  /** Every known attribute ID has a label, so the raw ID only shows for unknown ones. */
  lemma AttributeLabelsKnown(id: AttributeId)
    requires !id.UnknownAttribute?
    ensures LabelOf(ATTRIBUTES, AttributeText(id)).Some?
  {
    match id
    case Hope => LabelFoundAt(ATTRIBUTES, 0, "hope");
    case HopePct => LabelFoundAt(ATTRIBUTES, 1, "hope_pct");
    case Stress => LabelFoundAt(ATTRIBUTES, 2, "stress");
    case StressPct => LabelFoundAt(ATTRIBUTES, 3, "stress_pct");
    case HitPoints => LabelFoundAt(ATTRIBUTES, 4, "hitPoints");
    case HitPointsMax => LabelFoundAt(ATTRIBUTES, 5, "hitPoints_max");
    case HitPointsPct => LabelFoundAt(ATTRIBUTES, 6, "hitPoints_pct");
    case Evasion => LabelFoundAt(ATTRIBUTES, 7, "evasion");
    case Proficiency => LabelFoundAt(ATTRIBUTES, 8, "proficiency");
    case ArmorScore => LabelFoundAt(ATTRIBUTES, 9, "armorScore");
    case TraitScore(t) => TraitLabelsKnown(t);
  }

  lemma TraitLabelsKnown(t: Trait)
    ensures LabelOf(ATTRIBUTES, TraitText(t)).Some?
  {
    match t
    case Agility => LabelFoundAt(ATTRIBUTES, 10, "agility");
    case Strength => LabelFoundAt(ATTRIBUTES, 11, "strength");
    case Finesse => LabelFoundAt(ATTRIBUTES, 12, "finesse");
    case Instinct => LabelFoundAt(ATTRIBUTES, 13, "instinct");
    case Presence => LabelFoundAt(ATTRIBUTES, 14, "presence");
    case Knowledge => LabelFoundAt(ATTRIBUTES, 15, "knowledge");
  }

  /** Status and trigger summaries open with the subject and a colon. */
  lemma SubjectSummaryShape(c: Condition)
    requires ShowsSubjectFirst(c.kind)
    ensures StartsWith(SummarizeCondition(Some(c)), SubjectLabel(c.subject) + ": ")
  {
  }

  /** Attribute summaries open with the subject and end with the comparison. */
  lemma AttributeSummaryShape(c: Condition)
    requires c.kind == AttributeCondition
    ensures StartsWith(SummarizeCondition(Some(c)), SubjectLabel(c.subject) + " ")
    ensures EndsWith(SummarizeCondition(Some(c)), " " + OperatorText(c.operator) + " " + IntToString(c.value))
  {
  }

  /** Range summaries end with who must be in range. */
  lemma RangeSummaryShape(c: Condition)
    requires c.kind == RangeCondition
    ensures EndsWith(SummarizeCondition(Some(c)), " " + EM_DASH + " " + RangeWho(c))
  {
    var r := SummarizeCondition(Some(c));
    var q := " " + EM_DASH + " " + RangeWho(c);
    assert r[|r| - |q|..] == q;
  }

  /** Conditions that differ only in their subject get different summaries. */
  lemma ConditionSummaryShowsSubject(c: Condition)
    requires ShowsSubjectFirst(c.kind) || c.kind == AttributeCondition
    ensures SummarizeCondition(Some(c)) != SummarizeCondition(Some(c.(subject := if c.subject == TargetSubject then SelfSubject else TargetSubject)))
  {
    var d := c.(subject := if c.subject == TargetSubject then SelfSubject else TargetSubject);
    if c.kind == AttributeCondition {
      AttributeSummaryShape(c);
      AttributeSummaryShape(d);
    } else {
      SubjectSummaryShape(c);
      SubjectSummaryShape(d);
    }
    var r := SummarizeCondition(Some(c));
    var s := SummarizeCondition(Some(d));
    assert r[0] == SubjectLabel(c.subject)[0];
    assert s[0] == SubjectLabel(d.subject)[0];
  }

  /** A range condition about friends or enemies shows their count, 1 when unset. */
  lemma RangeSummaryCount(c: Condition)
    requires c.kind == RangeCondition && c.rangeSubject.Some?
    requires c.rangeSubject.value != "target" && c.rangeSubject.value != "attacker"
    ensures EndsWith(SummarizeCondition(Some(c)),
              " " + IntToString(c.rangeCount.GetOr(1)) + "+ " + (if c.rangeSubject.value == "friends" then "Friends" else "Enemies"))
  {
    var r := SummarizeCondition(Some(c));
    var q := " " + IntToString(c.rangeCount.GetOr(1)) + "+ " + (if c.rangeSubject.value == "friends" then "Friends" else "Enemies");
    assert r[|r| - |q|..] == q;
  }

  /** A range condition without mode or subject reads "Within: <band> — Target". */
  lemma RangeSummaryDefaults(c: Condition)
    requires c.kind == RangeCondition && c.rangeMode.None? && c.rangeSubject.None?
    ensures SummarizeCondition(Some(c)) == "Within: " + LabelOr(RANGE_TYPES, c.range) + " " + EM_DASH + " Target"
  {
  }

  /** The signed amounts in defense, proficiency and bare roll-bonus summaries read back as the effect's values. */
  lemma EffectSummaryReadsBack(e: Effect)
    ensures e.kind == DefenseBonus ==>
              ParseSigned(SummarizeEffect(Some(e))[|"Evasion/Difficulty "|..]) == Some(e.defenseBonus.GetOr(0))
    ensures e.kind == ProficiencyBonus ==>
              ParseSigned(SummarizeEffect(Some(e))[|"Proficiency "|..]) == Some(e.proficiencyBonus.GetOr(1))
    ensures e.kind == RollBonus && RollQualifiers(e) == [] ==>
              ParseSigned(SummarizeEffect(Some(e))[|"Roll "|..]) == Some(e.rollBonus)
  {
    var r := SummarizeEffect(Some(e));
    if e.kind == DefenseBonus {
      SignedTextRoundTrip(e.defenseBonus.GetOr(0));
      assert r[|"Evasion/Difficulty "|..] == SignedText(e.defenseBonus.GetOr(0));
    } else if e.kind == ProficiencyBonus {
      SignedTextRoundTrip(e.proficiencyBonus.GetOr(1));
      assert r[|"Proficiency "|..] == SignedText(e.proficiencyBonus.GetOr(1));
    } else if e.kind == RollBonus && RollQualifiers(e) == [] {
      SignedTextRoundTrip(e.rollBonus);
      assert r[|"Roll "|..] == SignedText(e.rollBonus);
    }
  }

  /** A damage bonus with dice or a flat bonus opens with the trimmed dice followed by the signed bonus. */
  lemma DamageSummaryAmount(e: Effect)
    requires e.kind == DamageBonus && (Trim(e.dice) != "" || e.bonus != 0)
    ensures StartsWith(SummarizeEffect(Some(e)), Trim(e.dice) + BonusText(e.bonus) + " ")
  {
  }

  /** A damage bonus without dice shows its flat bonus, signed, or "0". */
  lemma DiceFreeDamageSummary(e: Effect)
    requires e.kind == DamageBonus && Trim(e.dice) == ""
    ensures SummarizeEffect(Some(e)) ==
              (if e.bonus == 0 then "0" else SignedText(e.bonus)) + " " + LabelOr(DAMAGE_TYPES, e.damageType) + " dmg"
  {
  }

  /** A freshly created effect reads "Always" and "0 Physical dmg". */
  lemma DefaultEffectSummaries(id: string)
    ensures SummarizeCondition(Some(DefaultEffect(id).condition)) == "Always"
    ensures SummarizeEffect(Some(DefaultEffect(id).effect)) == "0 Physical dmg"
  {
    var e := DefaultEffect(id).effect;
    assert Trim(e.dice) == "";
    DiceFreeDamageSummary(e);
    assert LabelOf(DAMAGE_TYPES, "physical") == Some("Physical");
  }
}
