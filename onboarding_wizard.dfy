/**
 * The onboarding wizard: a five-step form that collects a role, a skill list
 * and a roadmap text. The page's React state becomes the fields of a class,
 * each UI handler a method, and the derived expressions (the effective
 * roadmap, the offered skills, the Next guard) functions.
 */
module OnboardingWizard {
  import opened Wrappers
  import opened Strings
  import opened Lists
  import opened OnboardingData

  /** The wizard's `formData` record. */
  datatype FormData = FormData(role: string, skills: seq<string>, aiRoadmap: string, editedRoadmap: string)

  /** The keys `saveData` accepts. */
  datatype FormKey = RoleKey | SkillsKey | AiRoadmapKey | EditedRoadmapKey

  /** A value stored under a key: text for the three string fields, a list for the skills. */
  datatype FormValue = Text(text: string) | Items(items: seq<string>)

  /** The kind of value each key holds (the TypeScript type of that field). */
  predicate Fits(key: FormKey, value: FormValue) {
    (key == SkillsKey) == value.Items?
  }

  /** The value stored under `key`. */
  function Get(form: FormData, key: FormKey): (v: FormValue)
    ensures Fits(key, v)
  {
    match key
    case RoleKey => Text(form.role)
    case SkillsKey => Items(form.skills)
    case AiRoadmapKey => Text(form.aiRoadmap)
    case EditedRoadmapKey => Text(form.editedRoadmap)
  }

  /** `{ ...prev, [key]: value }`: the record with the field `key` replaced by `value`. */
  function Save(form: FormData, key: FormKey, value: FormValue): (r: FormData)
    requires Fits(key, value)
    ensures forall k :: Get(r, k) == if k == key then value else Get(form, k)
  {
    match key
    case RoleKey => form.(role := value.text)
    case SkillsKey => form.(skills := value.items)
    case AiRoadmapKey => form.(aiRoadmap := value.text)
    case EditedRoadmapKey => form.(editedRoadmap := value.text)
  }

  /** Saving a field's own value changes nothing; saving twice is saving once. */
  lemma SaveLaws(form: FormData, key: FormKey, value: FormValue)
    requires Fits(key, value)
    ensures Save(form, key, Get(form, key)) == form
    ensures Save(Save(form, key, value), key, value) == Save(form, key, value)
  {
    FormDataDeterminedByFields(Save(form, key, Get(form, key)), form);
    FormDataDeterminedByFields(Save(Save(form, key, value), key, value), Save(form, key, value));
  }

  /** Two records that agree on every key are equal. */
  lemma FormDataDeterminedByFields(a: FormData, b: FormData)
    requires forall k :: Get(a, k) == Get(b, k)
    ensures a == b
  {
    assert Get(a, RoleKey) == Get(b, RoleKey);
    assert Get(a, SkillsKey) == Get(b, SkillsKey);
    assert Get(a, AiRoadmapKey) == Get(b, AiRoadmapKey);
    assert Get(a, EditedRoadmapKey) == Get(b, EditedRoadmapKey);
  }

  /** `getRoadmapValue`: `editedRoadmap || aiRoadmap`, so an empty edit falls back to the generated text. */
  function EffectiveRoadmap(form: FormData): (r: string)
    ensures r in {form.editedRoadmap, form.aiRoadmap}
  {
    if form.editedRoadmap != "" then form.editedRoadmap else form.aiRoadmap
  }

  /**
   * The effective roadmap in all four empty/non-empty combinations: a
   * non-empty edit wins, an empty edit shows the generated text, and the
   * result is empty only when both are.
   */
  lemma EffectiveRoadmapCases(form: FormData)
    ensures form.editedRoadmap != "" ==> EffectiveRoadmap(form) == form.editedRoadmap
    ensures form.editedRoadmap == "" ==> EffectiveRoadmap(form) == form.aiRoadmap
    ensures EffectiveRoadmap(form) == "" <==> form.editedRoadmap == "" && form.aiRoadmap == ""
  {
  }

  /** The role keys that JavaScript objects inherit from `Object.prototype` and that are all lower case. */
  const InheritedKeys: set<string> := {"constructor", "__proto__"}

  /** No listed role is an inherited key. */
  lemma TableKeysNotInherited()
    ensures forall k :: k in RoleSkillMap ==> k !in InheritedKeys
  {
    RoleKeysMatchTable();
  }

  /**
   * `roleSkillMap[role.toLowerCase()] || []` as written: a listed role gives
   * its list and an unknown role the empty list, but an inherited key such as
   * "constructor" gives a truthy non-array member, on which the skill step's
   * `.map` throws. `None` stands for that failure.
   */
  function SkillsForRoleAsWritten(role: string): (r: Option<seq<string>>)
    ensures r.None? <==> Lower(role) in InheritedKeys
  {
    var key := Lower(role);
    if key in RoleSkillMap then Some(RoleSkillMap[key])
    else if key in InheritedKeys then None
    else Some([])
  }

  /** A custom role "constructor" makes the skill step fail. */
  lemma ConstructorRoleBreaksSkillStep()
    ensures SkillsForRoleAsWritten("constructor") == None
  {
    assert IsLowerCase("constructor");
    LowerFacts("constructor");
    assert Lower("constructor") in InheritedKeys;
  }

  /**
   * `skillsForRole` with only the table's own roles looked up: the list of a
   * listed role (case-insensitively), and nothing for any other role.
   */
  function SkillsForRole(role: string): (r: seq<string>)
    ensures Lower(role) in RoleSkillMap ==> r == RoleSkillMap[Lower(role)]
    ensures Lower(role) !in RoleSkillMap ==> r == []
    ensures NoDuplicates(r)
  {
    RoleSkillMapWellFormed();
    var key := Lower(role);
    if key in RoleSkillMap then RoleSkillMap[key] else []
  }

  /** The corrected lookup agrees with the written one on every role that is not an inherited key. */
  lemma SkillsForRoleAgrees(role: string)
    ensures Lower(role) !in InheritedKeys ==> SkillsForRoleAsWritten(role) == Some(SkillsForRole(role))
    ensures Lower(role) in InheritedKeys ==> SkillsForRole(role) == []
  {
    TableKeysNotInherited();
  }

  /** The Next guard of the current step fails. */
  predicate NextBlocked(step: int, form: FormData)
    ensures NextBlocked(step, form) ==> 1 <= step < TotalSteps
  {
    || (step == 1 && form.role == "")
    || (step == 2 && |form.skills| == 0)
    || (step == 3 && form.aiRoadmap == "")
    || (step == 4 && EffectiveRoadmap(form) == "")
  }

  /** Every step before `step` has its data: the guards that had to hold to get there still hold. */
  predicate Completed(step: int, form: FormData) {
    && (step > 1 ==> form.role != "")
    && (step > 2 ==> |form.skills| > 0)
    && (step > 3 ==> form.aiRoadmap != "")
    && (step > 4 ==> EffectiveRoadmap(form) != "")
  }

  /** Passing the current step's guard completes that step. */
  lemma GuardCompletesStep(step: int, form: FormData)
    requires 1 <= step < TotalSteps && Completed(step, form)
    ensures !NextBlocked(step, form) <==> Completed(step + 1, form)
  {
    StepsDataShape();
    EffectiveRoadmapCases(form);
  }

  /** Once the generated roadmap exists, the edit step can never block Next. */
  lemma EditStepNeverBlocks(form: FormData)
    requires Completed(4, form)
    ensures !NextBlocked(4, form)
  {
    EffectiveRoadmapCases(form);
  }

  class Wizard {
    var step: int
    var form: FormData
    var customRole: string
    var customSkill: string

    /** The step is in range, the skills are distinct, and every earlier step is complete. */
    predicate Valid()
      reads this
    {
      1 <= step <= TotalSteps && NoDuplicates(form.skills) && Completed(step, form)
    }

    /** The initial state: step 1, an empty form and empty custom inputs. */
    constructor ()
      ensures Valid()
      ensures step == 1 && form == FormData("", [], "", "") && customRole == "" && customSkill == ""
    {
      step := 1;
      form := FormData("", [], "", "");
      customRole := "";
      customSkill := "";
      StepsDataShape();
    }

    /** The title shown beside the step counter. */
    function StepTitle(): (t: string)
      reads this
      requires Valid()
      ensures t in StepsData
    {
      StepsData[step - 1]
    }

    /** The text the edit and confirm steps show. */
    function RoadmapValue(): (r: string)
      reads this
      ensures r == "" <==> form.editedRoadmap == "" && form.aiRoadmap == ""
    {
      EffectiveRoadmapCases(form);
      EffectiveRoadmap(form)
    }

    /** The skills offered as checkboxes on the skill step. */
    function OfferedSkills(): (r: seq<string>)
      reads this
      ensures Lower(form.role) in RoleSkillMap ==> r == RoleSkillMap[Lower(form.role)]
      ensures Lower(form.role) !in RoleSkillMap ==> r == []
    {
      SkillsForRole(form.role)
    }

    /** The Back button is rendered. */
    predicate BackShown()
      reads this
    {
      step > 1
    }

    /** The Next button is rendered. */
    predicate NextShown()
      reads this
    {
      step < TotalSteps
    }

    /** The Next button is disabled. */
    predicate NextDisabled()
      reads this
    {
      NextBlocked(step, form)
    }

    /** `nextStep`: one step forward, never past the last step. */
    method NextStep()
      requires Valid() && !NextDisabled()
      modifies this`step
      ensures Valid()
      ensures step != old(step) <==> old(NextShown())
      ensures step == if old(step) < TotalSteps then old(step) + 1 else old(step)
    {
      StepsDataShape();
      if step < TotalSteps {
        GuardCompletesStep(step, form);
      }
      step := if step + 1 < TotalSteps then step + 1 else TotalSteps;
    }

    /** `prevStep`: one step back, never before the first step. */
    method PrevStep()
      requires Valid()
      modifies this`step
      ensures Valid()
      ensures step != old(step) <==> old(BackShown())
      ensures step == if old(step) > 1 then old(step) - 1 else old(step)
    {
      step := if step - 1 > 1 then step - 1 else 1;
    }

    /** `saveData(key, value)`: replaces one field of the form. */
    method SaveData(key: FormKey, value: FormValue)
      requires Fits(key, value)
      modifies this`form
      ensures form == Save(old(form), key, value)
    {
      form := Save(form, key, value);
    }

    /** A role button on the first step. */
    method ChooseRole(r: string)
      requires Valid() && step == 1 && r in RoleKeys
      modifies this`form
      ensures Valid()
      ensures form == old(form).(role := r)
    {
      SaveData(RoleKey, Text(r));
    }

    /** The "Other" button: the role becomes the custom role typed so far. */
    method ChooseOtherRole()
      requires Valid() && step == 1
      modifies this`form
      ensures Valid()
      ensures form == old(form).(role := customRole)
    {
      SaveData(RoleKey, Text(customRole));
    }

    /** Typing in the custom-role input, which is shown while the role is the custom role. */
    method TypeCustomRole(v: string)
      requires Valid() && step == 1 && form.role == customRole
      modifies this`form, this`customRole
      ensures Valid()
      ensures customRole == v && form == old(form).(role := v)
    {
      customRole := v;
      SaveData(RoleKey, Text(v));
    }

    /**
     * A skill checkbox: ticking an unticked skill appends it, unticking a
     * ticked one removes every occurrence of it.
     */
    method ToggleSkill(skill: string)
      requires Valid() && step == 2 && skill in OfferedSkills()
      modifies this`form
      ensures Valid()
      ensures skill in form.skills <==> skill !in old(form.skills)
      ensures skill !in old(form.skills) ==> form.skills == old(form.skills) + [skill]
      ensures skill in old(form.skills) ==> form.skills == Without(old(form.skills), skill)
      ensures form == old(form).(skills := form.skills)
    {
      var checked := skill !in form.skills;
      var updated;
      if checked {
        AppendFresh(form.skills, skill);
        updated := form.skills + [skill];
      } else {
        updated := Without(form.skills, skill);
      }
      SaveData(SkillsKey, Items(updated));
    }

    /** Typing in the custom-skill input. */
    method TypeCustomSkill(v: string)
      requires step == 2
      modifies this`customSkill
      ensures customSkill == v
    {
      customSkill := v;
    }

    /** "Add Skill": a non-empty custom skill not yet chosen is appended and the input cleared; otherwise nothing happens. */
    method AddCustomSkill()
      requires Valid() && step == 2
      modifies this`form, this`customSkill
      ensures Valid()
      ensures old(customSkill) != "" && old(customSkill) !in old(form.skills) ==>
        form == old(form).(skills := old(form.skills) + [old(customSkill)]) && customSkill == ""
      ensures old(customSkill) == "" || old(customSkill) in old(form.skills) ==>
        form == old(form) && customSkill == old(customSkill)
    {
      if customSkill != "" && customSkill !in form.skills {
        AppendFresh(form.skills, customSkill);
        SaveData(SkillsKey, Items(form.skills + [customSkill]));
        customSkill := "";
      }
    }

    /** "Generate Roadmap": the canned roadmap for the lower-cased role and the chosen skills. */
    method Generate()
      requires Valid() && step == 3
      modifies this`form
      ensures Valid()
      ensures form == old(form).(aiRoadmap := GenerateFakeRoadmap(Lower(old(form.role)), old(form.skills)))
      ensures form.aiRoadmap != ""
    {
      var roadmap := GenerateFakeRoadmap(Lower(form.role), form.skills);
      SaveData(AiRoadmapKey, Text(roadmap));
    }

    /** Editing the generated roadmap on the third step. */
    method EditAiRoadmap(v: string)
      requires Valid() && step == 3
      modifies this`form
      ensures Valid()
      ensures form == old(form).(aiRoadmap := v)
    {
      SaveData(AiRoadmapKey, Text(v));
    }

    /** Editing the roadmap on the fourth step; clearing the text brings the generated one back. */
    method EditRoadmap(v: string)
      requires Valid() && step == 4
      modifies this`form
      ensures Valid()
      ensures form == old(form).(editedRoadmap := v)
      ensures RoadmapValue() == if v != "" then v else form.aiRoadmap
    {
      SaveData(EditedRoadmapKey, Text(v));
    }
  }
}
