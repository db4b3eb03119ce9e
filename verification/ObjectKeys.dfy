/** Which step of which atom writes an object: its kind and name tell, so that atoms do not interfere. */
module ObjectKeys {
  import opened Strings
  import opened KubeObjects
  import opened Platforms
  import opened Workloads
  import opened Reconciling

  /** The steps are about one and the same object of an atom. */
  predicate SameObject(s: Step, t: Step) {
    match (s, t)
    case (EnsureConfigMap(a), EnsureConfigMap(b)) => a == b
    case (EnsureDeployment(_), EnsureDeployment(_)) => true
    case (EnsureDownload(i, _, _), EnsureDownload(j, _, _)) => i == j
    case _ => s == t
  }

  /** What follows the last dash in the name of a middleware. */
  function Word(step: Step): string
    requires StepKind(step) == MiddlewareKind
  {
    match step
    case EnsureStripPrefix => "prefixstrip"
    case EnsureHeaders => "headers"
    case EnsureDownload(index, _, _) => Itoa(index)
  }

  function Middle(step: Step): string
    requires StepKind(step) == MiddlewareKind
  {
    if step.EnsureDownload? then "-atom-downloads" else "-atom"
  }

  lemma MiddlewareName(pf: Platform, atomName: string, step: Step)
    requires StepKind(step) == MiddlewareKind
    ensures StepName(pf, atomName, step) == atomName + Middle(step) + ['-'] + Word(step)
    ensures '-' !in Word(step)
  {
    assert "-atom-prefixstrip" == "-atom" + ['-'] + "prefixstrip" && "-atom-headers" == "-atom" + ['-'] + "headers";
    assert "-atom-downloads-" == "-atom-downloads" + ['-'];
    SuffixParts(atomName, Middle(step), Word(step));
    SuffixParts(atomName, Middle(step), "");
  }

  lemma SuffixParts(atomName: string, middle: string, word: string)
    ensures atomName + (middle + ['-'] + word) == atomName + middle + ['-'] + word
  {
  }

  lemma WordsDiffer(s: Step, t: Step)
    requires StepKind(s) == StepKind(t) == MiddlewareKind && Word(s) == Word(t)
    ensures SameObject(s, t) && Middle(s) == Middle(t)
  {
    assert "prefixstrip"[0] == 'p' && "headers"[0] == 'h';
    if s.EnsureDownload? && t.EnsureDownload? {
      ItoaInjective(s.index, t.index);
    }
  }

  lemma MiddlewareNameUnique(pf: Platform, a: string, s: Step, b: string, t: Step)
    requires StepKind(s) == StepKind(t) == MiddlewareKind && StepName(pf, a, s) == StepName(pf, b, t)
    ensures a == b && SameObject(s, t)
  {
    MiddlewareName(pf, a, s);
    MiddlewareName(pf, b, t);
    LastCutUnique(a + Middle(s), Word(s), b + Middle(t), Word(t), '-');
    WordsDiffer(s, t);
    CancelSuffix(a, b, Middle(s));
  }

  lemma ConfigNameUnique(pf: Platform, a: string, text: string, b: string, text': string)
    requires HashLaws(pf) && ConfigName(pf, a, text) == ConfigName(pf, b, text')
    ensures a == b && text == text'
  {
    var h, h' := pf.hash(ConfigData(text)), pf.hash(ConfigData(text'));
    assert GeneratorName(a) + ['-'] + h == GeneratorName(b) + ['-'] + h';
    LastCutUnique(GeneratorName(a), h, GeneratorName(b), h', '-');
    CancelSuffix(a, b, GENERATOR_SUFFIX);
    ConfigNameInjective(pf, a, text, text');
  }

  lemma WorkloadNameUnique(a: string, b: string)
    requires WorkloadName(a) == WorkloadName(b)
    ensures a == b
  {
    CancelSuffix(a + "-", b + "-", APP_NAME);
    CancelSuffix(a, b, "-");
  }

  lemma StepNameUnique(pf: Platform, a: string, s: Step, b: string, t: Step)
    requires HashLaws(pf) && StepKind(s) == StepKind(t) && StepName(pf, a, s) == StepName(pf, b, t)
    ensures a == b && SameObject(s, t)
  {
    match StepKind(s)
    case ConfigMapKind => ConfigNameUnique(pf, a, s.text, b, t.text);
    case MiddlewareKind => MiddlewareNameUnique(pf, a, s, b, t);
    case DeploymentKind => WorkloadNameUnique(a, b);
    case BudgetKind => WorkloadNameUnique(a, b);
    case _ => CancelSuffix(a, b, NAME_SUFFIX);
  }

  /** Two steps write the same object only if they belong to the same atom and are about the same thing. */
  lemma KeyUnique(pf: Platform, a: string, s: Step, b: string, t: Step)
    requires HashLaws(pf)
    ensures KeyOf(pf, a, s) == KeyOf(pf, b, t) <==> a == b && SameObject(s, t)
  {
    if KeyOf(pf, a, s) == KeyOf(pf, b, t) {
      StepNameUnique(pf, a, s, b, t);
    }
  }
}
