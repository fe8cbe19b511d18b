/**
 * The onboarding wizard's constant data and the canned roadmap generator:
 * the step titles, the role-to-skills table and the template selection that
 * maps a role and a skill list to one of four fixed roadmap texts.
 */
module OnboardingData {
  import opened Wrappers
  import opened Strings
  import opened Lists

  /** The titles of the wizard's steps, in order. */
  const StepsData: seq<string> := [
    "Select Your Role",
    "Select Your Skills",
    "AI Generated Roadmap",
    "Edit Your Roadmap",
    "Confirm & Save Roadmap"
  ]

  /** The wizard's `totalSteps`. */
  const TotalSteps: nat := |StepsData|

  /** There are five steps, each with a title of its own. */
  lemma StepsDataShape()
    ensures TotalSteps == 5
    ensures NoDuplicates(StepsData)
  {
  }

  /** The roles offered on the first step, in the order their buttons are rendered. */
  const RoleKeys: seq<string> := [
    "frontend developer",
    "backend developer",
    "fullstack developer",
    "devops engineer",
    "mobile developer",
    "data scientist",
    "ai/ml engineer"
  ]

  /** The skills offered for each listed role. */
  const RoleSkillMap: map<string, seq<string>> := map[
    "frontend developer" := ["HTML", "CSS", "JavaScript", "React", "Next.js", "Vue.js", "Tailwind CSS"],
    "backend developer" := ["Node.js", "Express.js", "MongoDB", "PostgreSQL", "Java", "Python", "Spring Boot", "Django"],
    "fullstack developer" := [
      "HTML", "CSS", "JavaScript", "React", "Node.js", "Express.js",
      "MongoDB", "Next.js", "TypeScript", "REST APIs", "GraphQL"
    ],
    "devops engineer" := [
      "Linux", "Docker", "Kubernetes", "AWS", "Azure", "CI/CD", "Terraform", "Ansible", "Jenkins", "Monitoring Tools"
    ],
    "mobile developer" := ["Flutter", "React Native", "Kotlin", "Swift", "Firebase"],
    "data scientist" := ["Python", "R", "Pandas", "NumPy", "TensorFlow", "PyTorch", "SQL", "Machine Learning"],
    "ai/ml engineer" := ["Python", "TensorFlow", "PyTorch", "Scikit-learn", "Deep Learning", "NLP", "Data Engineering"]
  ]

  /** The rendered role list names exactly the table's keys, once each. */
  lemma RoleKeysMatchTable()
    ensures NoDuplicates(RoleKeys)
    ensures forall k :: k in RoleSkillMap <==> k in RoleKeys
  {
  }

  /** The skill list of one role names no skill twice. */
  lemma SkillListDistinct(role: string)
    requires role in RoleSkillMap
    ensures NoDuplicates(RoleSkillMap[role])
  {
  }

  /** The listed roles contain no upper-case letter. */
  lemma RoleKeysLowerCase()
    ensures forall i :: 0 <= i < |RoleKeys| ==> IsLowerCase(RoleKeys[i])
  {
    forall i | 0 <= i < |RoleKeys| ensures IsLowerCase(RoleKeys[i]) {
      var key := RoleKeys[i];
      assert forall j :: 0 <= j < |key| ==> key[j] == ' ' || key[j] == '/' || 'a' <= key[j] <= 'z';
    }
  }

  /** Every key of the table is lower case, and no skill list names a skill twice. */
  lemma RoleSkillMapWellFormed()
    ensures forall k :: k in RoleSkillMap ==> IsLowerCase(k)
    ensures forall k :: k in RoleSkillMap ==> NoDuplicates(RoleSkillMap[k])
  {
    RoleKeysMatchTable();
    RoleKeysLowerCase();
    forall k | k in RoleSkillMap ensures NoDuplicates(RoleSkillMap[k]) { SkillListDistinct(k); }
  }

  /** A numbered keycap emoji: the digit, VARIATION SELECTOR-16 and COMBINING ENCLOSING KEYCAP. */
  function Keycap(digit: char): string {
    [digit, '\U{FE0F}', '\U{20E3}']
  }

  const ReactName := "React"
  const VueName := "Vue.js"
  const TailwindName := "Tailwind CSS"
  const SassName := "SASS / SCSS"

  /** The lines of the frontend template before the framework slot. */
  const FrontendHeader: seq<string> := [
    "",
    "\U{1F680} Frontend Developer Roadmap",
    "",
    Keycap('1') + " Learn Basics:",
    "- HTML, CSS, JavaScript",
    "",
    Keycap('2') + " Frameworks:"
  ]

  /** The lines of the frontend template between the framework and the styling slot. */
  const FrontendMiddle: seq<string> := [
    "- Next.js for SSR & Routing",
    "",
    Keycap('3') + " Styling:"
  ]

  /** The fourth and fifth sections of the frontend template, after the styling slot. */
  const FrontendLowerSections: seq<string> := [
    "",
    Keycap('4') + " State Management:",
    "- Redux or Context API",
    "",
    Keycap('5') + " APIs:",
    "- REST APIs / GraphQL",
    ""
  ]

  /** The last three sections of the frontend template. */
  const FrontendClosingSections: seq<string> := [
    Keycap('6') + " Deployment:",
    "- Vercel or Netlify",
    "",
    Keycap('7') + " Optimization:",
    "- SEO, Accessibility, Performance",
    "",
    Keycap('8') + " Projects:",
    "- Build 3-5 real-world projects"
  ]

  /** The lines of the frontend template, with its framework and styling slots filled in. */
  function FrontendLines(framework: string, styling: string): seq<string> {
    FrontendHeader + ["- " + framework] + FrontendMiddle + ["- " + styling]
      + FrontendLowerSections + FrontendClosingSections
  }

  function FrontendRoadmap(framework: string, styling: string): string {
    JoinLines(FrontendLines(framework, styling))
  }

  const BackendRoadmap: string := JoinLines([
    "",
    "\U{1F527} Backend Developer Roadmap",
    "",
    Keycap('1') + " Language:",
    "- Node.js / Java / Python",
    "",
    Keycap('2') + " Framework:",
    "- Express.js / Spring Boot / Django",
    "",
    Keycap('3') + " Databases:",
    "- MongoDB / PostgreSQL / MySQL",
    "",
    Keycap('4') + " API Design:",
    "- REST APIs, GraphQL",
    "",
    Keycap('5') + " Authentication:",
    "- JWT, OAuth2",
    "",
    Keycap('6') + " Deployment:",
    "- AWS / Azure",
    "",
    Keycap('7') + " Testing & Scaling:",
    "- Unit tests, Load balancing",
    "",
    Keycap('8') + " Real-World Projects"
  ])

  const DevOpsRoadmap: string := JoinLines([
    "",
    "\U{2699}\U{FE0F} DevOps Engineer Roadmap",
    "",
    Keycap('1') + " Linux Essentials",
    "",
    Keycap('2') + " Docker & Containers",
    "",
    Keycap('3') + " Kubernetes Orchestration",
    "",
    Keycap('4') + " Cloud:",
    "- AWS / Azure / GCP",
    "",
    Keycap('5') + " CI/CD Pipelines:",
    "- Jenkins / GitHub Actions",
    "",
    Keycap('6') + " Infrastructure as Code:",
    "- Terraform / Ansible",
    "",
    Keycap('7') + " Monitoring:",
    "- Prometheus, Grafana",
    "",
    Keycap('8') + " Security Best Practices"
  ])

  const PlaceholderRoadmap: string := "AI Generated Roadmap will appear here based on your role and skills."

  /** The framework slot of the frontend template. */
  function FrameworkSlot(skills: seq<string>): (r: string)
    ensures r == ReactName <==> ReactName in skills
    ensures r == VueName <==> ReactName !in skills
  {
    if ReactName in skills then ReactName else VueName
  }

  /** The styling slot of the frontend template. */
  function StylingSlot(skills: seq<string>): (r: string)
    ensures r == TailwindName <==> TailwindName in skills
    ensures r == SassName <==> TailwindName !in skills
  {
    if TailwindName in skills then TailwindName else SassName
  }

  /**
   * `generateFakeRoadmap`: the first of "frontend", "backend", "devops" that
   * the role contains (case-sensitively) picks the template; any other role
   * gets the placeholder.
   */
  function GenerateFakeRoadmap(role: string, skills: seq<string>): (r: string)
    ensures r != ""
  {
    if Includes(role, "frontend") then FrontendRoadmap(FrameworkSlot(skills), StylingSlot(skills))
    else if Includes(role, "backend") then BackendRoadmap
    else if Includes(role, "devops") then DevOpsRoadmap
    else PlaceholderRoadmap
  }

  /**
   * The template is chosen by the first role category, in the order frontend,
   * backend, devops, that occurs in the role; the result is always one of the
   * four fixed texts.
   */
  lemma GenerateFakeRoadmapCases(role: string, skills: seq<string>)
    ensures Occurs("frontend", role) ==>
      GenerateFakeRoadmap(role, skills) == FrontendRoadmap(FrameworkSlot(skills), StylingSlot(skills))
    ensures !Occurs("frontend", role) && Occurs("backend", role) ==>
      GenerateFakeRoadmap(role, skills) == BackendRoadmap
    ensures !Occurs("frontend", role) && !Occurs("backend", role) && Occurs("devops", role) ==>
      GenerateFakeRoadmap(role, skills) == DevOpsRoadmap
    ensures !Occurs("frontend", role) && !Occurs("backend", role) && !Occurs("devops", role) ==>
      GenerateFakeRoadmap(role, skills) == PlaceholderRoadmap
    ensures GenerateFakeRoadmap(role, skills) in
      {BackendRoadmap, DevOpsRoadmap, PlaceholderRoadmap,
       FrontendRoadmap(ReactName, TailwindName), FrontendRoadmap(ReactName, SassName),
       FrontendRoadmap(VueName, TailwindName), FrontendRoadmap(VueName, SassName)}
  {
  }

  /** Only the frontend template reads the skill list. */
  lemma NonFrontendIgnoresSkills(role: string, skills1: seq<string>, skills2: seq<string>)
    requires !Occurs("frontend", role)
    ensures GenerateFakeRoadmap(role, skills1) == GenerateFakeRoadmap(role, skills2)
  {
  }

  /** No line of `lines` contains `p`. */
  ghost predicate NoLineMentions(p: string, lines: seq<string>) {
    forall k :: 0 <= k < |lines| ==> !Occurs(p, lines[k])
  }

  /*
   * Every fixed line of the frontend template lacks some character of each
   * slot value, so no slot value occurs in a fixed line. One lemma per slot
   * value and block of lines keeps each proof small.
   */

  lemma ReactNotInHeader()
    ensures NoLineMentions(ReactName, FrontendHeader)
  {
    MissingChar(ReactName, FrontendHeader[0], 0);
    MissingChar(ReactName, FrontendHeader[1], 3);
    MissingChar(ReactName, FrontendHeader[2], 0);
    MissingChar(ReactName, FrontendHeader[3], 0);
    MissingChar(ReactName, FrontendHeader[4], 0);
    MissingChar(ReactName, FrontendHeader[5], 0);
    MissingChar(ReactName, FrontendHeader[6], 0);
  }

  lemma ReactNotInMiddle()
    ensures NoLineMentions(ReactName, FrontendMiddle)
  {
    MissingChar(ReactName, FrontendMiddle[0], 2);
    MissingChar(ReactName, FrontendMiddle[1], 0);
    MissingChar(ReactName, FrontendMiddle[2], 0);
  }

  lemma ReactNotInLowerSections()
    ensures NoLineMentions(ReactName, FrontendLowerSections)
  {
    MissingChar(ReactName, FrontendLowerSections[0], 0);
    MissingChar(ReactName, FrontendLowerSections[1], 0);
    MissingChar(ReactName, FrontendLowerSections[2], 2);
    MissingChar(ReactName, FrontendLowerSections[3], 0);
    MissingChar(ReactName, FrontendLowerSections[4], 0);
    MissingChar(ReactName, FrontendLowerSections[5], 1);
    MissingChar(ReactName, FrontendLowerSections[6], 0);
  }

  lemma ReactNotInClosingSections()
    ensures NoLineMentions(ReactName, FrontendClosingSections)
  {
    MissingChar(ReactName, FrontendClosingSections[0], 0);
    MissingChar(ReactName, FrontendClosingSections[1], 0);
    MissingChar(ReactName, FrontendClosingSections[2], 0);
    MissingChar(ReactName, FrontendClosingSections[3], 0);
    MissingChar(ReactName, FrontendClosingSections[4], 0);
    MissingChar(ReactName, FrontendClosingSections[5], 0);
    MissingChar(ReactName, FrontendClosingSections[6], 0);
    MissingChar(ReactName, FrontendClosingSections[7], 0);
  }

  /** "React" occurs in no fixed line of the frontend template. */
  lemma ReactNotInFixedLines()
    ensures NoLineMentions(ReactName, FrontendHeader) && NoLineMentions(ReactName, FrontendMiddle)
    ensures NoLineMentions(ReactName, FrontendLowerSections) && NoLineMentions(ReactName, FrontendClosingSections)
  {
    ReactNotInHeader();
    ReactNotInMiddle();
    ReactNotInLowerSections();
    ReactNotInClosingSections();
  }

  lemma VueNotInHeader()
    ensures NoLineMentions(VueName, FrontendHeader)
  {
    MissingChar(VueName, FrontendHeader[0], 0);
    MissingChar(VueName, FrontendHeader[1], 0);
    MissingChar(VueName, FrontendHeader[2], 0);
    MissingChar(VueName, FrontendHeader[3], 0);
    MissingChar(VueName, FrontendHeader[4], 0);
    MissingChar(VueName, FrontendHeader[5], 0);
    MissingChar(VueName, FrontendHeader[6], 0);
  }

  lemma VueNotInMiddle()
    ensures NoLineMentions(VueName, FrontendMiddle)
  {
    MissingChar(VueName, FrontendMiddle[0], 0);
    MissingChar(VueName, FrontendMiddle[1], 0);
    MissingChar(VueName, FrontendMiddle[2], 0);
  }

  lemma VueNotInLowerSections()
    ensures NoLineMentions(VueName, FrontendLowerSections)
  {
    MissingChar(VueName, FrontendLowerSections[0], 0);
    MissingChar(VueName, FrontendLowerSections[1], 0);
    MissingChar(VueName, FrontendLowerSections[2], 0);
    MissingChar(VueName, FrontendLowerSections[3], 0);
    MissingChar(VueName, FrontendLowerSections[4], 0);
    MissingChar(VueName, FrontendLowerSections[5], 0);
    MissingChar(VueName, FrontendLowerSections[6], 0);
  }

  lemma VueNotInClosingSections()
    ensures NoLineMentions(VueName, FrontendClosingSections)
  {
    MissingChar(VueName, FrontendClosingSections[0], 0);
    MissingChar(VueName, FrontendClosingSections[1], 1);
    MissingChar(VueName, FrontendClosingSections[2], 0);
    MissingChar(VueName, FrontendClosingSections[3], 0);
    MissingChar(VueName, FrontendClosingSections[4], 0);
    MissingChar(VueName, FrontendClosingSections[5], 0);
    MissingChar(VueName, FrontendClosingSections[6], 0);
    MissingChar(VueName, FrontendClosingSections[7], 0);
  }

  /** "Vue.js" occurs in no fixed line of the frontend template. */
  lemma VueNotInFixedLines()
    ensures NoLineMentions(VueName, FrontendHeader) && NoLineMentions(VueName, FrontendMiddle)
    ensures NoLineMentions(VueName, FrontendLowerSections) && NoLineMentions(VueName, FrontendClosingSections)
  {
    VueNotInHeader();
    VueNotInMiddle();
    VueNotInLowerSections();
    VueNotInClosingSections();
  }

  lemma TailwindNotInHeader()
    ensures NoLineMentions(TailwindName, FrontendHeader)
  {
    MissingChar(TailwindName, FrontendHeader[0], 0);
    MissingChar(TailwindName, FrontendHeader[1], 0);
    MissingChar(TailwindName, FrontendHeader[2], 0);
    MissingChar(TailwindName, FrontendHeader[3], 0);
    MissingChar(TailwindName, FrontendHeader[4], 3);
    MissingChar(TailwindName, FrontendHeader[5], 0);
    MissingChar(TailwindName, FrontendHeader[6], 0);
  }

  lemma TailwindNotInMiddle()
    ensures NoLineMentions(TailwindName, FrontendMiddle)
  {
    MissingChar(TailwindName, FrontendMiddle[0], 0);
    MissingChar(TailwindName, FrontendMiddle[1], 0);
    MissingChar(TailwindName, FrontendMiddle[2], 0);
  }

  lemma TailwindNotInLowerSections()
    ensures NoLineMentions(TailwindName, FrontendLowerSections)
  {
    MissingChar(TailwindName, FrontendLowerSections[0], 0);
    MissingChar(TailwindName, FrontendLowerSections[1], 0);
    MissingChar(TailwindName, FrontendLowerSections[2], 0);
    MissingChar(TailwindName, FrontendLowerSections[3], 0);
    MissingChar(TailwindName, FrontendLowerSections[4], 0);
    MissingChar(TailwindName, FrontendLowerSections[5], 2);
    MissingChar(TailwindName, FrontendLowerSections[6], 0);
  }

  lemma TailwindNotInClosingSections()
    ensures NoLineMentions(TailwindName, FrontendClosingSections)
  {
    MissingChar(TailwindName, FrontendClosingSections[0], 0);
    MissingChar(TailwindName, FrontendClosingSections[1], 0);
    MissingChar(TailwindName, FrontendClosingSections[2], 0);
    MissingChar(TailwindName, FrontendClosingSections[3], 0);
    MissingChar(TailwindName, FrontendClosingSections[4], 0);
    MissingChar(TailwindName, FrontendClosingSections[5], 0);
    MissingChar(TailwindName, FrontendClosingSections[6], 0);
    MissingChar(TailwindName, FrontendClosingSections[7], 0);
  }

  /** "Tailwind CSS" occurs in no fixed line of the frontend template. */
  lemma TailwindNotInFixedLines()
    ensures NoLineMentions(TailwindName, FrontendHeader) && NoLineMentions(TailwindName, FrontendMiddle)
    ensures NoLineMentions(TailwindName, FrontendLowerSections) && NoLineMentions(TailwindName, FrontendClosingSections)
  {
    TailwindNotInHeader();
    TailwindNotInMiddle();
    TailwindNotInLowerSections();
    TailwindNotInClosingSections();
  }

  lemma SassNotInHeader()
    ensures NoLineMentions(SassName, FrontendHeader)
  {
    MissingChar(SassName, FrontendHeader[0], 0);
    MissingChar(SassName, FrontendHeader[1], 0);
    MissingChar(SassName, FrontendHeader[2], 0);
    MissingChar(SassName, FrontendHeader[3], 0);
    MissingChar(SassName, FrontendHeader[4], 1);
    MissingChar(SassName, FrontendHeader[5], 0);
    MissingChar(SassName, FrontendHeader[6], 0);
  }

  lemma SassNotInMiddle()
    ensures NoLineMentions(SassName, FrontendMiddle)
  {
    MissingChar(SassName, FrontendMiddle[0], 1);
    MissingChar(SassName, FrontendMiddle[1], 0);
    MissingChar(SassName, FrontendMiddle[2], 1);
  }

  lemma SassNotInLowerSections()
    ensures NoLineMentions(SassName, FrontendLowerSections)
  {
    MissingChar(SassName, FrontendLowerSections[0], 0);
    MissingChar(SassName, FrontendLowerSections[1], 1);
    MissingChar(SassName, FrontendLowerSections[2], 0);
    MissingChar(SassName, FrontendLowerSections[3], 0);
    MissingChar(SassName, FrontendLowerSections[4], 0);
    MissingChar(SassName, FrontendLowerSections[5], 8);
    MissingChar(SassName, FrontendLowerSections[6], 0);
  }

  lemma SassNotInClosingSections()
    ensures NoLineMentions(SassName, FrontendClosingSections)
  {
    MissingChar(SassName, FrontendClosingSections[0], 0);
    MissingChar(SassName, FrontendClosingSections[1], 0);
    MissingChar(SassName, FrontendClosingSections[2], 0);
    MissingChar(SassName, FrontendClosingSections[3], 0);
    MissingChar(SassName, FrontendClosingSections[4], 5);
    MissingChar(SassName, FrontendClosingSections[5], 0);
    MissingChar(SassName, FrontendClosingSections[6], 0);
    MissingChar(SassName, FrontendClosingSections[7], 0);
  }

  /** "SASS / SCSS" occurs in no fixed line of the frontend template. */
  lemma SassNotInFixedLines()
    ensures NoLineMentions(SassName, FrontendHeader) && NoLineMentions(SassName, FrontendMiddle)
    ensures NoLineMentions(SassName, FrontendLowerSections) && NoLineMentions(SassName, FrontendClosingSections)
  {
    SassNotInHeader();
    SassNotInMiddle();
    SassNotInLowerSections();
    SassNotInClosingSections();
  }

  /** Both slot values appear in the filled-in frontend template. */
  lemma SlotsOccur(framework: string, styling: string)
    ensures Occurs(framework, FrontendRoadmap(framework, styling))
    ensures Occurs(styling, FrontendRoadmap(framework, styling))
  {
    var lines := FrontendLines(framework, styling);
    OccursInMiddle("- ", framework, "");
    assert "- " + framework + "" == lines[7];
    OccursLineInJoin(framework, lines, 7);
    OccursInMiddle("- ", styling, "");
    assert "- " + styling + "" == lines[11];
    OccursLineInJoin(styling, lines, 11);
  }

  /** A pattern in no fixed line and in neither slot line is nowhere in the template. */
  lemma NotInTemplate(p: string, framework: string, styling: string)
    requires |p| > 0 && '\n' !in p
    requires NoLineMentions(p, FrontendHeader) && NoLineMentions(p, FrontendMiddle)
    requires NoLineMentions(p, FrontendLowerSections) && NoLineMentions(p, FrontendClosingSections)
    requires !Occurs(p, "- " + framework) && !Occurs(p, "- " + styling)
    ensures !Occurs(p, FrontendRoadmap(framework, styling))
  {
    var lines := FrontendLines(framework, styling);
    assert forall k :: 0 <= k < |lines| ==>
      lines[k] == (if k < 7 then FrontendHeader[k] else if k == 7 then "- " + framework
                   else if k < 11 then FrontendMiddle[k - 8] else if k == 11 then "- " + styling
                   else if k < 19 then FrontendLowerSections[k - 12] else FrontendClosingSections[k - 19]);
    OccursInSomeLine(p, lines);
  }

  /** With "Vue.js" in the framework slot, "React" appears nowhere in the template. */
  lemma NoReactInVueTemplate(styling: string)
    requires styling == TailwindName || styling == SassName
    ensures !Occurs(ReactName, FrontendRoadmap(VueName, styling))
  {
    ReactNotInFixedLines();
    MissingChar(ReactName, "- " + VueName, 0);
    MissingChar(ReactName, "- " + styling, 0);
    NotInTemplate(ReactName, VueName, styling);
  }

  /** With "React" in the framework slot, "Vue.js" appears nowhere in the template. */
  lemma NoVueInReactTemplate(styling: string)
    requires styling == TailwindName || styling == SassName
    ensures !Occurs(VueName, FrontendRoadmap(ReactName, styling))
  {
    VueNotInFixedLines();
    MissingChar(VueName, "- " + ReactName, 0);
    MissingChar(VueName, "- " + styling, 0);
    NotInTemplate(VueName, ReactName, styling);
  }

  /** With "SASS / SCSS" in the styling slot, "Tailwind CSS" appears nowhere in the template. */
  lemma NoTailwindInSassTemplate(framework: string)
    requires framework == ReactName || framework == VueName
    ensures !Occurs(TailwindName, FrontendRoadmap(framework, SassName))
  {
    TailwindNotInFixedLines();
    MissingChar(TailwindName, "- " + framework, 0);
    MissingChar(TailwindName, "- " + SassName, 0);
    NotInTemplate(TailwindName, framework, SassName);
  }

  /** With "Tailwind CSS" in the styling slot, "SASS / SCSS" appears nowhere in the template. */
  lemma NoSassInTailwindTemplate(framework: string)
    requires framework == ReactName || framework == VueName
    ensures !Occurs(SassName, FrontendRoadmap(framework, TailwindName))
  {
    SassNotInFixedLines();
    MissingChar(SassName, "- " + framework, 1);
    MissingChar(SassName, "- " + TailwindName, 1);
    NotInTemplate(SassName, framework, TailwindName);
  }

  /**
   * In the frontend template, "React" appears exactly when the framework slot
   * holds it, and likewise for "Vue.js", "Tailwind CSS" and "SASS / SCSS".
   */
  lemma FrontendMentions(framework: string, styling: string)
    requires framework == ReactName || framework == VueName
    requires styling == TailwindName || styling == SassName
    ensures Occurs(ReactName, FrontendRoadmap(framework, styling)) <==> framework == ReactName
    ensures Occurs(VueName, FrontendRoadmap(framework, styling)) <==> framework == VueName
    ensures Occurs(TailwindName, FrontendRoadmap(framework, styling)) <==> styling == TailwindName
    ensures Occurs(SassName, FrontendRoadmap(framework, styling)) <==> styling == SassName
  {
    SlotsOccur(framework, styling);
    if framework == VueName { NoReactInVueTemplate(styling); } else { NoVueInReactTemplate(styling); }
    if styling == SassName { NoTailwindInSassTemplate(framework); } else { NoSassInTailwindTemplate(framework); }
  }

  /**
   * For a frontend role the roadmap names "React" iff "React" is among the
   * skills and "Vue.js" otherwise, never both and never neither; it names
   * "Tailwind CSS" iff that is among the skills and "SASS / SCSS" otherwise.
   */
  lemma FrontendSlots(role: string, skills: seq<string>)
    requires Occurs("frontend", role)
    ensures Occurs(ReactName, GenerateFakeRoadmap(role, skills)) <==> ReactName in skills
    ensures Occurs(VueName, GenerateFakeRoadmap(role, skills)) <==> ReactName !in skills
    ensures Occurs(TailwindName, GenerateFakeRoadmap(role, skills)) <==> TailwindName in skills
    ensures Occurs(SassName, GenerateFakeRoadmap(role, skills)) <==> TailwindName !in skills
  {
    FrontendMentions(FrameworkSlot(skills), StylingSlot(skills));
  }

  /** A role in which none of the three categories occurs gets the placeholder. */
  lemma OutsideCategories(role: string, skills: seq<string>)
    requires !Occurs("frontend", role) && !Occurs("backend", role) && !Occurs("devops", role)
    ensures GenerateFakeRoadmap(role, skills) == PlaceholderRoadmap
  {
    GenerateFakeRoadmapCases(role, skills);
  }

  /** "devops" does not occur in "fullstack developer", although each of its letters does. */
  lemma NoDevOpsInFullstack()
    ensures !Occurs("devops", "fullstack developer")
  {
    assert "fullstack developer" == "fullstack" + [' '] + "developer";
    MissingChar("devops", "fullstack", 0);
    MissingChar("devops", "developer", 5);
    if Occurs("devops", "fullstack developer") {
      OccursAcrossSeparator("devops", "fullstack", ' ', "developer");
      assert false;
    }
  }

  /** "fullstack developer", a table role outside the three categories, gets the placeholder. */
  lemma FullstackGetsPlaceholder(skills: seq<string>)
    ensures GenerateFakeRoadmap("fullstack developer", skills) == PlaceholderRoadmap
  {
    MissingChar("frontend", "fullstack developer", 3);
    MissingChar("backend", "fullstack developer", 5);
    NoDevOpsInFullstack();
    OutsideCategories("fullstack developer", skills);
  }

  /** "mobile developer", a table role outside the three categories, gets the placeholder. */
  lemma MobileGetsPlaceholder(skills: seq<string>)
    ensures GenerateFakeRoadmap("mobile developer", skills) == PlaceholderRoadmap
  {
    MissingChar("frontend", "mobile developer", 0);
    MissingChar("backend", "mobile developer", 1);
    MissingChar("devops", "mobile developer", 5);
    OutsideCategories("mobile developer", skills);
  }

  /** "data scientist", a table role outside the three categories, gets the placeholder. */
  lemma DataScientistGetsPlaceholder(skills: seq<string>)
    ensures GenerateFakeRoadmap("data scientist", skills) == PlaceholderRoadmap
  {
    MissingChar("frontend", "data scientist", 0);
    MissingChar("backend", "data scientist", 0);
    MissingChar("devops", "data scientist", 2);
    OutsideCategories("data scientist", skills);
  }

  /** "ai/ml engineer", a table role outside the three categories, gets the placeholder. */
  lemma AiMlGetsPlaceholder(skills: seq<string>)
    ensures GenerateFakeRoadmap("ai/ml engineer", skills) == PlaceholderRoadmap
  {
    MissingChar("frontend", "ai/ml engineer", 0);
    MissingChar("backend", "ai/ml engineer", 0);
    MissingChar("devops", "ai/ml engineer", 0);
    OutsideCategories("ai/ml engineer", skills);
  }

  /** Matching is case-sensitive: a capitalised "Frontend Developer" gets the placeholder. */
  lemma CapitalisedRoleGetsPlaceholder(skills: seq<string>)
    ensures GenerateFakeRoadmap("Frontend Developer", skills) == PlaceholderRoadmap
  {
    MissingChar("frontend", "Frontend Developer", 0);
    MissingChar("backend", "Frontend Developer", 0);
    MissingChar("devops", "Frontend Developer", 5);
    OutsideCategories("Frontend Developer", skills);
  }

  /** "frontend" does not occur in "front-end developer", although each of its letters does. */
  lemma NoFrontendInHyphenated()
    ensures !Occurs("frontend", "front-end developer")
  {
    assert "front-end developer" == "front" + ['-'] + "end developer";
    MissingChar("frontend", "end developer", 0);
    assert !Occurs("frontend", "front");
    if Occurs("frontend", "front-end developer") {
      OccursAcrossSeparator("frontend", "front", '-', "end developer");
      assert false;
    }
  }

  /** A hyphenated "front-end developer" is outside the three categories and gets the placeholder. */
  lemma HyphenatedFrontendGetsPlaceholder(skills: seq<string>)
    ensures GenerateFakeRoadmap("front-end developer", skills) == PlaceholderRoadmap
  {
    NoFrontendInHyphenated();
    MissingChar("backend", "front-end developer", 0);
    MissingChar("devops", "front-end developer", 5);
    OutsideCategories("front-end developer", skills);
  }

  /** The "frontend developer" role gets the frontend template. */
  lemma FrontendRoleGetsFrontendTemplate(skills: seq<string>)
    ensures GenerateFakeRoadmap("frontend developer", skills)
      == FrontendRoadmap(FrameworkSlot(skills), StylingSlot(skills))
  {
    OccursInMiddle("", "frontend", " developer");
    assert "" + "frontend" + " developer" == "frontend developer";
  }

  /** The "backend developer" role gets the backend template. */
  lemma BackendRoleGetsBackendTemplate(skills: seq<string>)
    ensures GenerateFakeRoadmap("backend developer", skills) == BackendRoadmap
  {
    MissingChar("frontend", "backend developer", 0);
    OccursInMiddle("", "backend", " developer");
    assert "" + "backend" + " developer" == "backend developer";
  }

  /** The "devops engineer" role gets the DevOps template. */
  lemma DevOpsRoleGetsDevOpsTemplate(skills: seq<string>)
    ensures GenerateFakeRoadmap("devops engineer", skills) == DevOpsRoadmap
  {
    MissingChar("frontend", "devops engineer", 0);
    MissingChar("backend", "devops engineer", 0);
    OccursInMiddle("", "devops", " engineer");
    assert "" + "devops" + " engineer" == "devops engineer";
  }
}
