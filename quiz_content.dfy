/**
 * The step content table (titles, texts, options and selection rules for
 * steps 1..18), its personalisation by name, flags and answers, and the
 * shared validation messages.
 */
module QuizContent {
  import opened Wrappers
  import opened JsText
  import opened QuizTypes
  import opened QuizEngine

  datatype QuizOption = QuizOption(id: string, caption: string, value: string, autoAdvance: bool)

  datatype Rules = Rules(required: bool, minSelections: Option<int>, maxSelections: Option<int>)

  datatype QuizStep = QuizStep(
    id: int,
    stepType: StepType,
    title: string,
    content: Option<string>,
    options: seq<QuizOption>,
    validation: Option<Rules>)

  const NomePlaceholder := "{{nome}}"

  function Choice(value: string, caption: string): QuizOption {
    QuizOption(value, caption, value, true)
  }

  function Pick(value: string, caption: string): QuizOption {
    QuizOption(value, caption, value, false)
  }

  const AtLeastOne := Some(Rules(false, Some(1), None))

  // `QUIZ_STEPS` is written column by column, one function per field of an
  // entry, so that a proof about one field does not unfold the others.

  /** The `type` of each entry. */
  function EntryType(step: int): StepType {
    if step == 1 then Presentation
    else if step == 2 then SingleChoice
    else if step == 3 then Presentation
    else if step == 4 then SingleChoice
    else if step == 5 then SingleChoice
    else if step == 6 then Form
    else if step == 7 then SingleChoice
    else if step == 8 then SingleChoice
    else if step == 9 then MultipleChoice
    else if step == 10 then MultipleChoice
    else if step == 11 then MultipleChoice
    else if step == 12 then Presentation
    else if step == 13 then SingleChoice
    else if step == 14 then SingleChoice
    else if step == 15 then Presentation
    else if step == 16 then SingleChoice
    else if step == 17 then Loading
    else if step == 18 then Presentation
    else Presentation
  }

  /** The `title` of each entry. */
  function EntryTitle(step: int): string {
    if step == 1 then "Durma naturalmente e acorde cheio de energia em apenas 7 dias"
    else if step == 2 then "Qual é a sua faixa etária?"
    else if step == 3 then "Você não está sozinho(a)"
    else if step == 4 then "Qual situação descreve melhor o seu sono?"
    else if step == 5 then "Quantas horas você dorme por noite?"
    else if step == 6 then "Para personalizar seus resultados..."
    else if step == 7 then "Você já tentou remédios para dormir?"
    else if step == 8 then "Com que frequência você sente ansiedade?"
    else if step == 9 then "Como a falta de sono tem afetado você?"
    else if step == 10 then "Quais consequências mais te preocupam?"
    else if step == 11 then "O que você mais deseja alcançar?"
    else if step == 12 then "Depoimentos Reais"
    else if step == 13 then "Quanto você conhece sobre higiene do sono?"
    else if step == 14 then "O que você prefere para melhorar seu sono?"
    else if step == 15 then NomePlaceholder + Step15TitleRest
    else if step == 16 then "Como você se sente sobre mudar seus hábitos de sono?"
    else if step == 17 then "Estamos analisando suas respostas… ⏳"
    else if step == 18 then NomePlaceholder + Step18TitleRest
    else []
  }

  /** The `content` of each entry, where it has one. */
  function EntryContent(step: int): Option<string> {
    if step == 1 then Some("Descubra se você pode eliminar a insônia naturalmente (Questionário de 1 minuto).")
    else if step == 3 then Some("Mais de 1.000 pessoas já voltaram a dormir naturalmente com este método.")
    else if step == 6 then Some("Precisamos de algumas informações básicas:")
    else if step == 9 then Some("Selecione todas as opções que se aplicam:")
    else if step == 10 then Some("Selecione suas principais preocupações:")
    else if step == 11 then Some("Selecione seus objetivos principais:")
    else if step == 12 then Some("\"Em apenas 5 dias consegui dormir sem melatonina pela primeira vez em 2 anos. O método é simples e realmente funciona!\" - Maria, 34 anos")
    else if step == 15 then Some("Baseado nas suas respostas, identificamos exatamente o que está sabotando seu sono.")
    else if step == 17 then Some("Preparando seu plano personalizado para dormir naturalmente...")
    else if step == 18 then Some("Descubra o método que já ajudou mais de 1.000 pessoas a voltarem a dormir naturalmente.")
    else None
  }

  /** The `options` of each entry: single-choice options advance on their own, multiple-choice ones do not. */
  function EntryOptions(step: int): seq<QuizOption> {
    if 9 <= step <= 11 then MultipleChoiceOptions(step) else SingleChoiceOptions(step)
  }

  /** The options of the single-choice steps. */
  function SingleChoiceOptions(step: int): seq<QuizOption> {
    if step == 2 then [Choice("18-28", "18 a 28 anos"), Choice("29-38", "29 a 38 anos"),
        Choice("39-49", "39 a 49 anos"), Choice("50+", "50 anos ou mais")]
    else if step == 4 then [Choice("demoro", "Demoro mais de 30 min para adormecer"),
        Choice("acordo_varias", "Acordo várias vezes durante a noite"),
        Choice("acordo_cansado", "Acordo cansado(a), mesmo dormindo 7-8h"),
        Choice("sem_problemas", "Não tenho problemas para dormir")]
    else if step == 5 then [Choice("<5", "Menos de 5 horas"), Choice("5-6", "5 a 6 horas"),
        Choice("7-8", "7 a 8 horas"), Choice(">8", "Mais de 8 horas")]
    else if step == 7 then [Choice("frequente", "Uso frequentemente (melatonina, rivotril, etc.)"),
        Choice("tentei_nao_resolveu", "Já tentei mas não resolveu"),
        Choice("pensei", "Já pensei em tentar"), Choice("nunca", "Nunca tentei")]
    else if step == 8 then [Choice("sempre", "Sempre"), Choice("muitas", "Muitas vezes"),
        Choice("raramente", "Raramente"), Choice("nunca", "Nunca")]
    else if step == 13 then [Choice("nada", "Nada, é a primeira vez que ouço falar"),
        Choice("pouco", "Já ouvi falar, mas não sei aplicar"),
        Choice("tentei", "Já tentei algumas técnicas sem sucesso")]
    else if step == 14 then [Choice("profundo", "Programa completo e aprofundado"),
        Choice("rapido_sem_remedio", "Solução rápida sem remédios"),
        Choice("energia", "Foco em acordar com mais energia"),
        Choice("reduzir_ansiedade", "Reduzir ansiedade para dormir melhor")]
    else if step == 16 then [Choice("decidido", "Estou decidido(a) a mudar agora"),
        Choice("mudar_habitos", "Quero mudar mas preciso de ajuda"),
        Choice("medo_falhar", "Tenho medo de tentar e falhar novamente")]
    else []
  }

  /** The options of the multiple-choice steps. */
  function MultipleChoiceOptions(step: int): seq<QuizOption> {
    if step == 9 then [Pick("concentracao", "Dificuldade de concentração"), Pick("memoria", "Problemas de memória"),
        Pick("humor", "Mudanças de humor/irritabilidade"), Pick("energia", "Falta de energia durante o dia"),
        Pick("trabalho", "Queda na produtividade no trabalho"),
        Pick("relacionamentos", "Impacto nos relacionamentos")]
    else if step == 10 then [Pick("saude_mental", "Problemas de saúde mental (depressão, ansiedade)"),
        Pick("sistema_imune", "Sistema imunológico enfraquecido"), Pick("ganho_peso", "Ganho de peso"),
        Pick("envelhecimento", "Envelhecimento precoce"),
        Pick("performance", "Queda na performance física/mental"),
        Pick("doencas", "Risco de doenças crônicas")]
    else if step == 11 then [Pick("adormecer_rapido", "Adormecer rapidamente (em até 10 minutos)"),
        Pick("sono_profundo", "Ter um sono profundo e reparador"),
        Pick("acordar_disposto", "Acordar disposto(a) e com energia"),
        Pick("parar_remedios", "Parar de depender de remédios"),
        Pick("reduzir_ansiedade", "Reduzir a ansiedade naturalmente"),
        Pick("melhorar_humor", "Melhorar o humor e disposição")]
    else []
  }

  /** The `validation` of each entry; a rule without `required` reads as not required. */
  function EntryRules(step: int): Option<Rules> {
    if step == 6 then Some(Rules(true, None, None))
    else if 9 <= step <= 11 then AtLeastOne
    else None
  }

  /** `QUIZ_STEPS[step]`; `None` for a step the table does not list. */
  function QuizSteps(step: int): Option<QuizStep> {
    if FirstStep <= step <= FinalStep then
      Some(QuizStep(step, EntryType(step), EntryTitle(step), EntryContent(step), EntryOptions(step), EntryRules(step)))
    else None
  }

  const Step15TitleRest := ", sua jornada para dormir melhor começa agora"
  const Step18TitleRest := ", seu plano personalizado para dormir naturalmente está pronto!"

  const RemediosTestimonial := "\"Consegui parar com a melatonina em 1 semana! Agora durmo naturalmente e acordo muito mais descansada.\" - Ana, 29 anos"
  const AnsiedadeTestimonial := "\"A ansiedade era o que mais atrapalhava meu sono. Com as técnicas do método, consegui relaxar e dormir profundamente.\" - Carlos, 42 anos"
  const RemediosPromise := "Identificamos que você pode parar de depender de remédios para dormir. Vamos mostrar exatamente como fazer isso de forma segura e natural."
  const AnsiedadePromise := "A ansiedade está sabotando seu sono. Nosso método inclui técnicas específicas para acalmar sua mente antes de dormir."
  const ExperiencedPromise := "Você já tentou outras técnicas sem sucesso. Nosso método é diferente - baseado em ciência e resultados comprovados."
  const OfferSuffix := ". Acesso imediato por apenas R$ 67."

  /** The offer description chosen by the preferred direction; the default covers "profundo" and no answer. */
  function OfferDescription(d: Option<Direcionamento>): string {
    if d == Some(RapidoSemRemedio) then "Solução rápida para dormir sem remédios"
    else if d == Some(Energia) then "Programa focado em acordar com energia"
    else if d == Some(ReduzirAnsiedade) then "Método para reduzir ansiedade e melhorar o sono"
    else "Método completo para dormir naturalmente"
  }

  /** `{{nome}}` replaced throughout `text` when the name is set; `$` patterns in the name are expanded as `replace` does. */
  function WithName(text: string, nome: string): string {
    if nome != [] && text != [] then ReplaceAll(text, NomePlaceholder, nome) else text
  }

  /** The step-specific part of `getPersonalizedContent`: the entry of `step`, already named, varied by flags and answers. */
  function Personalize(step: int, named: QuizStep, state: QuizState): QuizStep {
    var f := state.flags;
    if step == 12 then
      if f.branchHeavyRemedios then named.(content := Some(RemediosTestimonial))
      else if f.branchHighAnsiedade then named.(content := Some(AnsiedadeTestimonial))
      else named
    else if step == 15 then
      if f.branchHeavyRemedios then named.(content := Some(RemediosPromise))
      else if f.branchHighAnsiedade then named.(content := Some(AnsiedadePromise))
      else if f.experienced then named.(content := Some(ExperiencedPromise))
      else named
    else if step == 18 then named.(content := Some(OfferDescription(state.direcionamento) + OfferSuffix))
    else named
  }

  /** The entry with `{{nome}}` filled into its title and its text. */
  function Named(entry: QuizStep, nome: string): QuizStep {
    entry.(title := WithName(entry.title, nome),
           content := if entry.content.Some? then Some(WithName(entry.content.value, nome)) else None)
  }

  /** `getPersonalizedContent`: a copy of the table entry, named, then varied at steps 12, 15 and 18. */
  function GetPersonalizedContent(step: int, state: QuizState): Option<QuizStep> {
    match QuizSteps(step)
    case None => None
    case Some(entry) => Some(Personalize(step, Named(entry, state.nome), state))
  }

  /** The engine's step type for each step is the one its table entry declares. */
  lemma {:induction false} TableTypesMatchEngine(step: int)
    requires FirstStep <= step <= FinalStep
    ensures QuizSteps(step).Some? && QuizSteps(step).value.id == step
    ensures QuizSteps(step).value.stepType == GetStepType(step)
  {
    EntryTypeMatches(step);
  }

  lemma EntryTypeMatches(step: int)
    requires FirstStep <= step <= FinalStep
    ensures EntryType(step) == GetStepType(step)
  {
  }

  /** Steps 9..11 ask for at least one selection and nothing else; the engine demands a non-empty list at steps 10 and 11. */
  lemma MinSelectionsMatchEngine(state: QuizState, step: int)
    requires 9 <= step <= 11
    ensures QuizSteps(step).value.validation == Some(Rules(false, Some(1), None))
    ensures step == 10 ==> (ValidateStep(state, step).Valid? <==> |state.consequencias| >= 1)
    ensures step == 11 ==> (ValidateStep(state, step).Valid? <==> |state.desejos| >= 1)
  {
    if step >= 10 {
      EngineListRules(state, step);
    }
  }

  lemma EngineListRules(state: QuizState, step: int)
    requires 10 <= step <= 11
    ensures step == 10 ==> (ValidateStep(state, step).Valid? <==> |state.consequencias| >= 1)
    ensures step == 11 ==> (ValidateStep(state, step).Valid? <==> |state.desejos| >= 1)
  {
  }

  /** The values of a list of options, in order. */
  function OptionValues(options: seq<QuizOption>): (r: seq<string>)
    ensures |r| == |options| && forall i :: 0 <= i < |options| ==> r[i] == options[i].value
  {
    if options == [] then [] else [options[0].value] + OptionValues(options[1..])
  }

  // Each single-choice step offers exactly the values of its answer
  // enumeration, in declaration order.

  /** Step 2 offers the age ranges. */
  lemma AgeOptions()
    ensures |SingleChoiceOptions(2)| == 4
    ensures SingleChoiceOptions(2)[0].value == Age18To28.Value()
    ensures SingleChoiceOptions(2)[1].value == Age29To38.Value()
    ensures SingleChoiceOptions(2)[2].value == Age39To49.Value()
    ensures SingleChoiceOptions(2)[3].value == Age50Plus.Value()
  {
  }

  /** Step 4 offers the sleep diagnoses. */
  lemma DiagnosticoOptions()
    ensures |SingleChoiceOptions(4)| == 4
    ensures SingleChoiceOptions(4)[0].value == Demoro.Value()
    ensures SingleChoiceOptions(4)[1].value == AcordoVarias.Value()
    ensures SingleChoiceOptions(4)[2].value == AcordoCansado.Value()
    ensures SingleChoiceOptions(4)[3].value == SemProblemas.Value()
  {
  }

  /** Step 5 offers the hours of sleep. */
  lemma HorasOptions()
    ensures |SingleChoiceOptions(5)| == 4
    ensures SingleChoiceOptions(5)[0].value == Under5.Value()
    ensures SingleChoiceOptions(5)[1].value == From5To6.Value()
    ensures SingleChoiceOptions(5)[2].value == From7To8.Value()
    ensures SingleChoiceOptions(5)[3].value == Over8.Value()
  {
  }

  /** Step 7 offers the experiences with sleeping pills. */
  lemma RemediosOptions()
    ensures |SingleChoiceOptions(7)| == 4
    ensures SingleChoiceOptions(7)[0].value == Frequente.Value()
    ensures SingleChoiceOptions(7)[1].value == TenteiNaoResolveu.Value()
    ensures SingleChoiceOptions(7)[2].value == Pensei.Value()
    ensures SingleChoiceOptions(7)[3].value == NuncaRemedio.Value()
  {
  }

  /** Step 8 offers the anxiety frequencies. */
  lemma AnsiedadeOptions()
    ensures |SingleChoiceOptions(8)| == 4
    ensures SingleChoiceOptions(8)[0].value == Sempre.Value()
    ensures SingleChoiceOptions(8)[1].value == Muitas.Value()
    ensures SingleChoiceOptions(8)[2].value == Raramente.Value()
    ensures SingleChoiceOptions(8)[3].value == NuncaAnsiedade.Value()
  {
  }

  /** Step 13 offers the levels of sleep-hygiene knowledge. */
  lemma ConhecimentoOptions()
    ensures |SingleChoiceOptions(13)| == 3
    ensures SingleChoiceOptions(13)[0].value == Nada.Value()
    ensures SingleChoiceOptions(13)[1].value == Pouco.Value()
    ensures SingleChoiceOptions(13)[2].value == Tentei.Value()
  {
  }

  /** Step 14 offers the preferred directions. */
  lemma DirecionamentoOptions()
    ensures |SingleChoiceOptions(14)| == 4
    ensures SingleChoiceOptions(14)[0].value == Profundo.Value()
    ensures SingleChoiceOptions(14)[1].value == RapidoSemRemedio.Value()
    ensures SingleChoiceOptions(14)[2].value == Energia.Value()
    ensures SingleChoiceOptions(14)[3].value == ReduzirAnsiedade.Value()
  {
  }

  /** Step 16 offers the micro-commitments. */
  lemma MicroOptions()
    ensures |SingleChoiceOptions(16)| == 3
    ensures SingleChoiceOptions(16)[0].value == Decidido.Value()
    ensures SingleChoiceOptions(16)[1].value == MudarHabitos.Value()
    ensures SingleChoiceOptions(16)[2].value == MedoFalhar.Value()
  {
  }

  /** "produtividade", which the offer page looks for among the impacts, is no impact option; "energia" is one. */
  lemma ImpactKeywords()
    ensures "produtividade" !in OptionValues(MultipleChoiceOptions(9))
    ensures "energia" in OptionValues(MultipleChoiceOptions(9))
  {
    assert OptionValues(MultipleChoiceOptions(9)) == ["concentracao", "memoria", "humor", "energia", "trabalho", "relacionamentos"];
  }

  /** "dormir_rapido", which the offer page looks for among the wishes, is no wish option. */
  lemma WishKeywords()
    ensures "dormir_rapido" !in OptionValues(MultipleChoiceOptions(11))
  {
  }

  /** "energia" is an impact but no wish option. */
  lemma EnergiaIsNoWish()
    ensures "energia" !in OptionValues(MultipleChoiceOptions(11))
  {
  }

  /**
   * Personalisation keeps the entry's id, type, options and rules, fills the
   * name into its title, and changes its text only by filling the name in,
   * except at steps 12, 15 and 18. A step outside the table has no content.
   */
  lemma PersonalizedShape(step: int, state: QuizState)
    ensures QuizSteps(step).None? ==> GetPersonalizedContent(step, state).None?
    ensures QuizSteps(step).Some? ==>
      var e, r := QuizSteps(step).value, GetPersonalizedContent(step, state);
      r.Some? && r.value.id == e.id && r.value.stepType == e.stepType &&
      r.value.options == e.options && r.value.validation == e.validation &&
      r.value.title == WithName(e.title, state.nome) &&
      (step != 12 && step != 15 && step != 18 ==>
        r.value.content == if e.content.Some? then Some(WithName(e.content.value, state.nome)) else None)
  {
  }

  /**
   * Filling a name into a title that opens with the placeholder puts the
   * name's substitution first: the name itself when it holds no dollar sign.
   * Without a name the title stays.
   */
  lemma NameOpensTitle(rest: string, nome: string)
    ensures nome == [] ==> WithName(NomePlaceholder + rest, nome) == NomePlaceholder + rest
    ensures nome != [] ==> StartsWith(WithName(NomePlaceholder + rest, nome), Substitution(nome, NomePlaceholder, "", rest))
    ensures nome != [] && '$' !in nome ==> StartsWith(WithName(NomePlaceholder + rest, nome), nome)
  {
    if nome != [] {
      ReplaceAllLeading(NomePlaceholder, rest, nome);
      var first := Substitution(nome, NomePlaceholder, "", rest);
      var title := first + ReplaceFrom(NomePlaceholder + rest, |NomePlaceholder|, NomePlaceholder, nome);
      assert title[..|first|] == first;
      if '$' !in nome {
        SubstitutionPlain(nome, NomePlaceholder, "", rest);
      }
    }
  }

  /** A name written as `$&` stands for the match itself, so the placeholder stays at the head of the title. */
  lemma DollarNameKeepsPlaceholder(rest: string)
    ensures StartsWith(WithName(NomePlaceholder + rest, "$&"), NomePlaceholder)
  {
    assert Substitution("$&", NomePlaceholder, "", rest) == NomePlaceholder + Substitution([], NomePlaceholder, "", rest);
    NameOpensTitle(rest, "$&");
  }

  /** The titles of steps 15 and 18 open with the placeholder, so that once named they open with the name's substitution. */
  lemma NamedTitles(step: int, nome: string)
    requires step == 15 || step == 18
    ensures StartsWith(EntryTitle(step), NomePlaceholder)
    ensures nome != [] ==> StartsWith(WithName(EntryTitle(step), nome),
      Substitution(nome, NomePlaceholder, "", if step == 15 then Step15TitleRest else Step18TitleRest))
    ensures nome != [] && '$' !in nome ==> StartsWith(WithName(EntryTitle(step), nome), nome)
  {
    var rest := if step == 15 then Step15TitleRest else Step18TitleRest;
    assert EntryTitle(step) == NomePlaceholder + rest;
    assert (NomePlaceholder + rest)[..|NomePlaceholder|] == NomePlaceholder;
    NameOpensTitle(rest, nome);
  }

  /** Step 12 shows the remedies testimonial first, else the anxiety one, else the entry's own; nothing but the text changes. */
  lemma TestimonialChoice(named: QuizStep, state: QuizState)
    ensures Personalize(12, named, state) == named.(content := Personalize(12, named, state).content)
    ensures Personalize(12, named, state).content ==
      if state.flags.branchHeavyRemedios then Some(RemediosTestimonial)
      else if state.flags.branchHighAnsiedade then Some(AnsiedadeTestimonial)
      else named.content
  {
  }

  /** Step 15's promise: remedies over anxiety over experience over the entry's own text. */
  lemma PromiseChoice(named: QuizStep, state: QuizState)
    ensures Personalize(15, named, state) == named.(content := Personalize(15, named, state).content)
    ensures Personalize(15, named, state).content ==
      if state.flags.branchHeavyRemedios then Some(RemediosPromise)
      else if state.flags.branchHighAnsiedade then Some(AnsiedadePromise)
      else if state.flags.experienced then Some(ExperiencedPromise)
      else named.content
  {
  }

  /** Step 18 always ends with the price sentence, after the description the direction picks ("profundo" or none: the complete method). */
  lemma OfferContent(named: QuizStep, state: QuizState)
    ensures Personalize(18, named, state).content == Some(OfferDescription(state.direcionamento) + OfferSuffix)
    ensures EndsWith(Personalize(18, named, state).content.value, OfferSuffix)
    ensures state.direcionamento in {None, Some(Profundo)} ==>
      OfferDescription(state.direcionamento) == "Método completo para dormir naturalmente"
  {
    var c := OfferDescription(state.direcionamento) + OfferSuffix;
    assert c[|c| - |OfferSuffix|..] == OfferSuffix;
  }

  /** Every other step is only named. */
  lemma OtherStepsOnlyNamed(step: int, named: QuizStep, state: QuizState)
    requires step != 12 && step != 15 && step != 18
    ensures Personalize(step, named, state) == named
  {
  }

  datatype ValidationMessages = ValidationMessages(
    required: string, email: string, name: string, consent: string,
    minSelections: string, maxSelections: string)

  /** `VALIDATION_MESSAGES`. */
  const Messages := ValidationMessages(
    "Este campo é obrigatório",
    "Por favor, insira um email válido",
    "Nome deve ter pelo menos 2 caracteres",
    "É necessário concordar com o tratamento de dados para continuar",
    "Por favor, selecione pelo menos uma opção",
    "Você pode selecionar no máximo {{max}} opções")

  /** The shared messages are word for word the ones the engine reports. */
  lemma MessagesMatchEngine()
    ensures Messages.name == MsgNome && Messages.email == MsgEmail && Messages.consent == MsgConsent
    ensures Messages.minSelections == MsgAtLeastOne
  {
  }
}
