/**
 * The assessment's question catalog: ten questions, each with three
 * answer options weighted 0 ("bad"), 0.5 ("iffy") and 1 ("best"), and a
 * note for the two weaker answers.
 */
module Questions {

  datatype Tag = Bad | Iffy | Best

  datatype AnswerOption = AnswerOption(weight: real, tag: Tag)

  datatype Question = Question(
    id: string,
    options: seq<AnswerOption>,
    noteBad: string,
    noteIffy: string)

  /** The answers given so far: question id to the option picked for it. */
  type Answers = map<string, AnswerOption>

  /** The weight an option carries is fixed by its tag. */
  predicate TagMatchesWeight(o: AnswerOption) {
    match o.tag
    case Bad => o.weight == 0.0
    case Iffy => o.weight == 0.5
    case Best => o.weight == 1.0
  }

  predicate HasWeight(options: seq<AnswerOption>, w: real) {
    exists o :: o in options && o.weight == w
  }

  /** Three options, one per weight, tags agreeing with weights, and both notes present. */
  predicate WellFormed(q: Question) {
    && |q.options| == 3
    && (forall o :: o in q.options ==> TagMatchesWeight(o))
    && HasWeight(q.options, 0.0)
    && HasWeight(q.options, 0.5)
    && HasWeight(q.options, 1.0)
    && q.noteBad != ""
    && q.noteIffy != ""
  }

  function Ids(qs: seq<Question>): (ids: seq<string>)
    ensures |ids| == |qs|
    ensures forall k :: 0 <= k < |qs| ==> ids[k] == qs[k].id
  {
    seq(|qs|, k requires 0 <= k < |qs| => qs[k].id)
  }

  predicate DistinctIds(qs: seq<Question>) {
    forall i, j :: 0 <= i < j < |qs| ==> qs[i].id != qs[j].id
  }

  /** The three answers every question offers, worst first. */
  const StandardOptions: seq<AnswerOption> :=
    [AnswerOption(0.0, Bad), AnswerOption(0.5, Iffy), AnswerOption(1.0, Best)]

  /** The catalog, in presentation order before shuffling (prompts and option labels omitted). */
  const BaseQuestions: seq<Question> := [
    Question("q1", StandardOptions,
      "Implement both strong password requirements and multi-factor authentication.",
      "Great start! Add the missing piece - either MFA or stronger password policies."),
    Question("q2", StandardOptions,
      "Implement access controls based on roles and responsibilities.",
      "Good start but consider enforcing it across all systems."),
    Question("q3", StandardOptions,
      "Create a privacy policy that covers data collection and usage.",
      "Add scheduled reviews of the policy."),
    Question("q4", StandardOptions,
      "Write a simple incident response plan.",
      "Publish the plan and train staff."),
    Question("q5", StandardOptions,
      "Create a simple business continuity plan.",
      "Practice the plan with all staff."),
    Question("q6", StandardOptions,
      "Implement device encryption, endpoint protection, and automatic updates.",
      "Ensure all security measures are consistently applied across all devices."),
    Question("q7", StandardOptions,
      "Implement physical access controls for sensitive areas and equipment.",
      "Add access logging and regular security audits."),
    Question("q8", StandardOptions,
      "Implement annual cybersecurity training covering phishing, data handling, and safe practices.",
      "Add hands-on phishing simulations and regular security updates."),
    Question("q9", StandardOptions,
      "Research applicable federal cybersecurity standards for your industry and organization type.",
      "Develop a formal compliance plan and begin implementation of relevant standards."),
    Question("q10", StandardOptions,
      "Prioritize addressing major gaps in your cybersecurity posture.",
      "Continue monitoring and improving your cybersecurity measures.")
  ]

  /** The catalog holds ten questions, q1 to q10, in that order and without repeats. */
  lemma CatalogIds()
    ensures Ids(BaseQuestions) == ["q1", "q2", "q3", "q4", "q5", "q6", "q7", "q8", "q9", "q10"]
    ensures DistinctIds(BaseQuestions)
  {
  }

  /** The catalog holds ten questions. */
  lemma CatalogSize()
    ensures |BaseQuestions| == 10
  {
  }

  /** The standard options carry one option per weight, each tagged to match. */
  lemma StandardOptionsWellFormed(q: Question)
    requires q.options == StandardOptions
    requires q.noteBad != "" && q.noteIffy != ""
    ensures WellFormed(q)
  {
    var o := StandardOptions;
    assert o[0] in o && o[1] in o && o[2] in o;
  }

  /** Every question of the catalog is well formed. */
  lemma CatalogWellFormed()
    ensures forall k :: 0 <= k < |BaseQuestions| ==> WellFormed(BaseQuestions[k])
  {
    forall k | 0 <= k < |BaseQuestions|
      ensures WellFormed(BaseQuestions[k])
    {
      StandardOptionsWellFormed(BaseQuestions[k]);
    }
  }

  /** In a well-formed question no two options carry the same weight. */
  lemma {:induction false} OneOptionPerWeight(q: Question)
    requires WellFormed(q)
    ensures forall i, j :: 0 <= i < j < |q.options| ==> q.options[i].weight != q.options[j].weight
  {
    var a :| a in q.options && a.weight == 0.0;
    var b :| b in q.options && b.weight == 0.5;
    var c :| c in q.options && c.weight == 1.0;
  }

  /** Every weight an answer can carry lies in [0, 1]. */
  lemma {:induction false} WeightsInUnitInterval(q: Question)
    requires WellFormed(q)
    ensures forall o :: o in q.options ==> 0.0 <= o.weight <= 1.0
  {
    forall o | o in q.options
      ensures 0.0 <= o.weight <= 1.0
    {
      assert TagMatchesWeight(o);
    }
  }

  /** Well-formedness depends only on which options a question has, not on their order. */
  lemma {:induction false} WellFormedUnderReordering(q: Question, options: seq<AnswerOption>)
    requires WellFormed(q)
    requires multiset(options) == multiset(q.options)
    ensures WellFormed(q.(options := options))
  {
    assert |options| == |multiset(options)| == |multiset(q.options)| == 3;
    forall o | o in options
      ensures o in q.options
    {
      assert o in multiset(options);
    }
    forall w | w == 0.0 || w == 0.5 || w == 1.0
      ensures HasWeight(options, w)
    {
      var o :| o in q.options && o.weight == w;
      assert o in multiset(q.options);
      assert o in options;
    }
  }
}
