/**
 * The offer page shown at step 18: the flag-driven copy lines, the
 * variant tag sent to analytics and checkout, the "Antes" and "Depois"
 * bullet lists built from answers and flags and topped up with fixed
 * fallbacks, the prerequisite check, and the checkout button that ignores
 * clicks while a checkout is in flight.
 */
module OfferStep {
  import opened Wrappers
  import opened JsText
  import opened QuizTypes
  import QuizContent
  import QuizEngine

  // ---------------------------------------------------------------- copy lines

  function RemediosCopy(): string { "Sem depender de remédios todas as noites." }
  function AnsiedadeCopy(): string { "Rotina anti-ansiedade para deitar mais tranquilo(a)." }
  function ExperiencedCopy(): string { "Método estruturado > técnicas soltas." }
  function ReassuranceCopy(): string { "Se não funcionar, você não paga." }

  /** The copy line of every set flag, in the order remedios, ansiedade, experienced, reassurance. */
  function AllCopy(f: Flags): seq<string> {
    (if f.branchHeavyRemedios then [RemediosCopy()] else []) +
    (if f.branchHighAnsiedade then [AnsiedadeCopy()] else []) +
    (if f.experienced then [ExperiencedCopy()] else []) +
    (if f.reassurance then [ReassuranceCopy()] else [])
  }

  /** `getCopyVariants`: the first three of those lines. */
  function CopyVariants(f: Flags): seq<string> {
    FirstThree(AllCopy(f))
  }

  function FirstThree<T>(xs: seq<T>): seq<T> {
    if |xs| > 3 then xs[..3] else xs
  }

  /**
   * At most three lines; the first three flags always get theirs, and the
   * reassurance line is dropped exactly when the other three are all set.
   * The no-problems flag plays no part.
   */
  lemma CopyVariantsRules(f: Flags)
    ensures |CopyVariants(f)| <= 3 && Unique(CopyVariants(f))
    ensures RemediosCopy() in CopyVariants(f) <==> f.branchHeavyRemedios
    ensures AnsiedadeCopy() in CopyVariants(f) <==> f.branchHighAnsiedade
    ensures ExperiencedCopy() in CopyVariants(f) <==> f.experienced
    ensures ReassuranceCopy() in CopyVariants(f) <==>
      f.reassurance && !(f.branchHeavyRemedios && f.branchHighAnsiedade && f.experienced)
    ensures CopyVariants(f) == CopyVariants(f.(branchNoProblems := !f.branchNoProblems))
  {
    CopiesDistinct();
    var all := AllCopy(f);
    if |all| > 3 {
      assert all == [RemediosCopy(), AnsiedadeCopy(), ExperiencedCopy(), ReassuranceCopy()];
      assert CopyVariants(f) == [RemediosCopy(), AnsiedadeCopy(), ExperiencedCopy()];
    }
  }

  /** The four copy lines have four different lengths. */
  lemma CopiesDistinct()
    ensures RemediosCopy() != AnsiedadeCopy() && RemediosCopy() != ExperiencedCopy()
    ensures RemediosCopy() != ReassuranceCopy() && AnsiedadeCopy() != ExperiencedCopy()
    ensures AnsiedadeCopy() != ReassuranceCopy() && ExperiencedCopy() != ReassuranceCopy()
  {
    assert |RemediosCopy()| == 41 && |AnsiedadeCopy()| == 52;
    assert |ExperiencedCopy()| == 37 && |ReassuranceCopy()| == 32;
  }

  // ---------------------------------------------------------------- variant tag

  /** The tags of the four offer flags that are set, in order. */
  function OfferTags(f: Flags): (tags: seq<string>)
    ensures |tags| <= 4
  {
    (if f.branchHeavyRemedios then ["remedios"] else []) +
    (if f.branchHighAnsiedade then ["ansiedade"] else []) +
    (if f.experienced then ["experienced"] else []) +
    (if f.reassurance then ["reassurance"] else [])
  }

  /** No tag is empty or holds a '+'. */
  lemma OfferTagsPlain(f: Flags)
    ensures forall t :: t in OfferTags(f) ==> t != [] && '+' !in t
  {
    forall t | t in OfferTags(f) ensures t != [] && '+' !in t {
      assert t == "remedios" || t == "ansiedade" || t == "experienced" || t == "reassurance";
    }
  }

  /** `buildVariantString`: the tags joined by "+", or "default" when the join is empty. */
  function VariantString(f: Flags): string {
    var joined := Join(OfferTags(f), "+");
    if joined != [] then joined else "default"
  }

  /**
   * The variant string is "default" exactly when none of the four offer flags
   * is set, and otherwise splits on "+" back into the set flags' tags.
   */
  lemma {:induction false} VariantStringRoundTrip(f: Flags)
    ensures VariantString(f) == "default" <==> OfferTags(f) == []
    ensures OfferTags(f) != [] ==> Split(VariantString(f), '+') == OfferTags(f)
  {
    var tags := OfferTags(f);
    OfferTagsPlain(f);
    if tags != [] {
      assert tags[0] in tags;
      forall k, i | 0 <= k < |tags| && 0 <= i < |tags[k]| ensures tags[k][i] != '+' {
        assert tags[k] in tags && tags[k][i] in tags[k];
      }
      SplitJoin(tags, '+');
    }
  }

  // ---------------------------------------------------------------- the fill loop

  /** The most bullets a list receives from the fallbacks. */
  const MaxBullets := 4

  /** No element occurs twice. */
  predicate Unique<T(==)>(xs: seq<T>) {
    forall i, j :: 0 <= i < j < |xs| ==> xs[i] != xs[j]
  }

  /** One round of the `forEach` fill: append the fallback when there is room and it is not listed yet. */
  function Push<T(==)>(bullets: seq<T>, fallback: T): seq<T> {
    if |bullets| < MaxBullets && fallback !in bullets then bullets + [fallback] else bullets
  }

  /** The fill loop over all the fallbacks, in order. */
  function Fill<T(==)>(bullets: seq<T>, fallbacks: seq<T>): seq<T>
    decreases |fallbacks|
  {
    if fallbacks == [] then bullets
    else Push(Fill(bullets, fallbacks[..|fallbacks| - 1]), fallbacks[|fallbacks| - 1])
  }

  /** Filling keeps the bullets in front, adds no duplicate, and stops at four. */
  lemma {:induction false} FillKeeps<T>(bullets: seq<T>, fallbacks: seq<T>)
    requires Unique(bullets)
    ensures Unique(Fill(bullets, fallbacks))
    ensures bullets <= Fill(bullets, fallbacks)
    ensures |Fill(bullets, fallbacks)| <= if |bullets| < MaxBullets then MaxBullets else |bullets|
    decreases |fallbacks|
  {
    if fallbacks != [] {
      var front := fallbacks[..|fallbacks| - 1];
      FillKeeps(bullets, front);
      var r := Fill(bullets, front);
      var x := fallbacks[|fallbacks| - 1];
      if |r| < MaxBullets && x !in r {
        assert Unique(r + [x]);
      }
    }
  }

  /** With distinct fallbacks that are not among the bullets, the fill adds them until there are four. */
  lemma {:induction false} FillCount<T>(bullets: seq<T>, fallbacks: seq<T>)
    requires Unique(bullets) && Unique(fallbacks)
    requires forall x :: x in fallbacks ==> x !in bullets
    requires |bullets| <= MaxBullets
    ensures |Fill(bullets, fallbacks)| == if |bullets| + |fallbacks| < MaxBullets then |bullets| + |fallbacks| else MaxBullets
    decreases |fallbacks|
  {
    if fallbacks != [] {
      var front := fallbacks[..|fallbacks| - 1];
      var x := fallbacks[|fallbacks| - 1];
      assert forall y :: y in front ==> y in fallbacks;
      FillCount(bullets, front);
      FillAddsOnlyFallbacks(bullets, front);
      assert x !in Fill(bullets, front);
    }
  }

  /** `slice(0, 4)`. */
  function FirstFour<T>(xs: seq<T>): seq<T> {
    if |xs| > MaxBullets then xs[..MaxBullets] else xs
  }

  // ---------------------------------------------------------------- the bullets

  /** Every bullet either list can show; `Text` is what the page displays and what the fill loop compares. */
  datatype Bullet =
    | Demora | AcordaVarias | AcordaCansado | AnsiedadeDeitar | MedoRemedio | ProdutividadeQueda
    | NoitesMalDormidas | CansacoDia | DificuldadeRelaxar
    | DormirRapido | AcordarLeve | RotinaAntiAnsiedade | SemRemedios
    | SonoRegulado | NoitesTranquilas | MenteRelaxada | DespertarRenovado
  {
    function Text(): string {
      match this
      case Demora => "Demora para adormecer"
      case AcordaVarias => "Acorda várias vezes durante a noite"
      case AcordaCansado => "Acorda cansado(a) e sem energia"
      case AnsiedadeDeitar => "Ansiedade na hora de deitar"
      case MedoRemedio => "Medo de depender de remédio"
      case ProdutividadeQueda => "Produtividade em queda"
      case NoitesMalDormidas => "Noites mal dormidas"
      case CansacoDia => "Cansaço durante o dia"
      case DificuldadeRelaxar => "Dificuldade para relaxar"
      case DormirRapido => "Dormir rápido e profundamente"
      case AcordarLeve => "Acordar leve e com energia"
      case RotinaAntiAnsiedade => "Rotina anti-ansiedade para deitar tranquilo(a)"
      case SemRemedios => "Sem depender de remédios todas as noites"
      case SonoRegulado => "Sono regulado em poucos dias"
      case NoitesTranquilas => "Noites tranquilas e reparadoras"
      case MenteRelaxada => "Mente relaxada na hora de dormir"
      case DespertarRenovado => "Despertar renovado(a)"
    }

    /** The nine bullets of the "Antes" list. */
    predicate IsAntes() {
      Demora? || AcordaVarias? || AcordaCansado? || AnsiedadeDeitar? || MedoRemedio? ||
      ProdutividadeQueda? || NoitesMalDormidas? || CansacoDia? || DificuldadeRelaxar?
    }

    /** The eight bullets of the "Depois" list. */
    predicate IsDepois() {
      DormirRapido? || AcordarLeve? || RotinaAntiAnsiedade? || SemRemedios? ||
      SonoRegulado? || NoitesTranquilas? || MenteRelaxada? || DespertarRenovado?
    }
  }

  /** What the page displays for a bullet. */
  function TextOf(b: Bullet): string {
    b.Text()
  }

  /** The displayed form of each element, in order. */
  function Map<T>(xs: seq<T>, text: T -> string): (r: seq<string>)
    ensures |r| == |xs| && forall i :: 0 <= i < |xs| ==> r[i] == text(xs[i])
  {
    if xs == [] then [] else [text(xs[0])] + Map(xs[1..], text)
  }

  /** The texts of the bullets, in order. */
  function Texts(xs: seq<Bullet>): seq<string> {
    Map(xs, TextOf)
  }

  /** No two distinct elements of `xs` are displayed alike. */
  ghost predicate InjectiveOn<T>(xs: seq<T>, text: T -> string) {
    forall a, b :: a in xs && b in xs && text(a) == text(b) ==> a == b
  }

  /** Within the "Antes" list no two bullets share a text. */
  lemma AntesTextsDiffer(a: Bullet, b: Bullet)
    requires a.IsAntes() && b.IsAntes() && a.Text() == b.Text()
    ensures a == b
  {
  }

  /** Within the "Depois" list no two bullets share a text. */
  lemma DepoisTextsDiffer(a: Bullet, b: Bullet)
    requires a.IsDepois() && b.IsDepois() && a.Text() == b.Text()
    ensures a == b
  {
  }

  /** All bullets of `xs` belong to one list: "Antes" when `antes`, "Depois" otherwise. */
  predicate OfList(xs: seq<Bullet>, antes: bool) {
    forall b :: b in xs ==> if antes then b.IsAntes() else b.IsDepois()
  }

  /** Bullets of one list are told apart by their texts. */
  lemma OfListInjective(xs: seq<Bullet>, antes: bool)
    requires OfList(xs, antes)
    ensures InjectiveOn(xs, TextOf)
  {
    forall a, b | a in xs && b in xs && TextOf(a) == TextOf(b) ensures a == b {
      if antes { AntesTextsDiffer(a, b); } else { DepoisTextsDiffer(a, b); }
    }
  }

  /** When texts tell the elements apart, looking a text up is looking the element up. */
  lemma MapMember<T>(xs: seq<T>, x: T, text: T -> string)
    requires InjectiveOn(xs + [x], text)
    ensures text(x) in Map(xs, text) <==> x in xs
  {
    var texts := Map(xs, text);
    if text(x) in texts {
      var i :| 0 <= i < |xs| && texts[i] == text(x);
      assert xs[i] in xs + [x];
    }
    if x in xs {
      var i :| 0 <= i < |xs| && xs[i] == x;
      assert texts[i] == text(x);
    }
  }

  /** Distinct elements told apart by their texts show distinct texts. */
  lemma MapUnique<T>(xs: seq<T>, text: T -> string)
    requires InjectiveOn(xs, text) && Unique(xs)
    ensures Unique(Map(xs, text))
  {
    forall i, j | 0 <= i < j < |xs| ensures Map(xs, text)[i] != Map(xs, text)[j] {
      assert xs[i] in xs && xs[j] in xs;
    }
  }

  /** Distinct bullets of one list show distinct texts. */
  lemma TextsUnique(xs: seq<Bullet>, antes: bool)
    requires OfList(xs, antes) && Unique(xs)
    ensures Unique(Texts(xs))
  {
    OfListInjective(xs, antes);
    MapUnique(xs, TextOf);
  }

  /** Cutting to four commutes with taking the texts. */
  lemma MapFirstFour<T>(xs: seq<T>, text: T -> string)
    ensures FirstFour(Map(xs, text)) == Map(FirstFour(xs), text)
  {
  }

  /**
   * The fill loop as `forEach` runs it over the displayed texts. When the
   * texts tell the bullets apart, it is the fill over the bullets.
   */
  method FillBullets<T>(bullets: seq<T>, fallbacks: seq<T>, text: T -> string) returns (r: seq<string>)
    requires InjectiveOn(bullets + fallbacks, text)
    ensures r == Map(Fill(bullets, fallbacks), text)
  {
    r := Map(bullets, text);
    var i := 0;
    while i < |fallbacks|
      invariant 0 <= i <= |fallbacks|
      invariant r == Map(Fill(bullets, fallbacks[..i]), text)
    {
      assert fallbacks[..i + 1][..i] == fallbacks[..i];
      ghost var done := Fill(bullets, fallbacks[..i]);
      assert Fill(bullets, fallbacks[..i + 1]) == Push(done, fallbacks[i]);
      FillAddsOnlyFallbacks(bullets, fallbacks[..i]);
      assert InjectiveOn(done + [fallbacks[i]], text) by {
        assert forall b :: b in done + [fallbacks[i]] ==> b in bullets + fallbacks;
      }
      MapMember(done, fallbacks[i], text);
      MapPush(done, fallbacks[i], text);
      if |r| < MaxBullets && text(fallbacks[i]) !in r {
        r := r + [text(fallbacks[i])];
      }
      i := i + 1;
    }
    assert fallbacks[..i] == fallbacks;
  }

  /** One round of the fill, seen through the texts. */
  lemma MapPush<T>(done: seq<T>, x: T, text: T -> string)
    requires text(x) in Map(done, text) <==> x in done
    ensures Map(Push(done, x), text) ==
      if |done| < MaxBullets && text(x) !in Map(done, text) then Map(done, text) + [text(x)] else Map(done, text)
  {
    if |done| < MaxBullets && x !in done {
      MapSnoc(done, x, text);
    }
  }

  lemma MapSnoc<T>(xs: seq<T>, x: T, text: T -> string)
    ensures Map(xs + [x], text) == Map(xs, text) + [text(x)]
  {
    var a, b := Map(xs + [x], text), Map(xs, text) + [text(x)];
    forall i | 0 <= i < |a| ensures a[i] == b[i] {
      if i < |xs| {
        assert (xs + [x])[i] == xs[i];
      }
    }
  }

  /** Filling adds only fallbacks. */
  lemma {:induction false} FillAddsOnlyFallbacks<T>(bullets: seq<T>, fallbacks: seq<T>)
    ensures forall x :: x in Fill(bullets, fallbacks) ==> x in bullets || x in fallbacks
    decreases |fallbacks|
  {
    if fallbacks != [] {
      var front := fallbacks[..|fallbacks| - 1];
      FillAddsOnlyFallbacks(bullets, front);
      assert forall y :: y in front ==> y in fallbacks;
    }
  }

  // ---------------------------------------------------------------- Antes

  /** The "Antes" bullet of a diagnosis; "sem_problemas" has none. */
  function DiagnosticoBullet(d: Diagnostico): Option<Bullet> {
    match d
    case Demoro => Some(Demora)
    case AcordoVarias => Some(AcordaVarias)
    case AcordoCansado => Some(AcordaCansado)
    case SemProblemas => None
  }

  const AntesFallbacks := [NoitesMalDormidas, CansacoDia, DificuldadeRelaxar]

  predicate HighAnxiety(s: QuizState) {
    s.ansiedade == Some(Sempre) || s.ansiedade == Some(Muitas)
  }

  predicate FearsRemedies(s: QuizState) {
    s.remedios == Some(Frequente) || s.remedios == Some(TenteiNaoResolveu)
  }

  /** The bullets derived from the answers, before any fallback. */
  function AntesDerived(s: QuizState): seq<Bullet> {
    (if s.diagnostico.Some? && DiagnosticoBullet(s.diagnostico.value).Some? then [DiagnosticoBullet(s.diagnostico.value).value] else []) +
    (if HighAnxiety(s) then [AnsiedadeDeitar] else []) +
    (if FearsRemedies(s) then [MedoRemedio] else []) +
    (if "produtividade" in s.impactos then [ProdutividadeQueda] else [])
  }

  /** `getAntesBullets` as a function: fallbacks only when fewer than three bullets came from the answers. */
  function Antes(s: QuizState): seq<Bullet> {
    var derived := AntesDerived(s);
    FirstFour(if |derived| < 3 then Fill(derived, AntesFallbacks) else derived)
  }

  /**
   * Three or four distinct bullets of the "Antes" list, the answer-derived
   * ones first and in order; fallbacks are added only when fewer than three
   * were derived.
   */
  lemma AntesShape(s: QuizState)
    ensures 3 <= |Antes(s)| <= 4 && Unique(Antes(s)) && OfList(Antes(s), true)
    ensures AntesDerived(s) <= Antes(s)
    ensures |AntesDerived(s)| >= 3 ==> Antes(s) == AntesDerived(s)
    ensures forall b :: b in Antes(s) ==> b in AntesDerived(s) || b in AntesFallbacks
  {
    var derived := AntesDerived(s);
    AntesDerivedFacts(s);
    if |derived| < 3 {
      FillKeeps(derived, AntesFallbacks);
      FillAddsOnlyFallbacks(derived, AntesFallbacks);
      FillCount(derived, AntesFallbacks);
    }
  }

  /** The derived bullets are at most four distinct "Antes" bullets, none of them a fallback. */
  lemma AntesDerivedFacts(s: QuizState)
    ensures |AntesDerived(s)| <= MaxBullets && Unique(AntesDerived(s)) && OfList(AntesDerived(s), true)
    ensures forall x :: x in AntesFallbacks ==> x !in AntesDerived(s)
    ensures Unique(AntesFallbacks)
  {
  }

  /** The anxiety, remedies and productivity bullets appear exactly on their answers. */
  lemma AntesAnswerBullets(s: QuizState)
    ensures AnsiedadeDeitar in Antes(s) <==> HighAnxiety(s)
    ensures MedoRemedio in Antes(s) <==> FearsRemedies(s)
    ensures ProdutividadeQueda in Antes(s) <==> "produtividade" in s.impactos
  {
    AntesShape(s);
    AntesDerivedMembers(s);
    assert forall b :: b in AntesDerived(s) ==> b in Antes(s);
  }

  lemma AntesDerivedMembers(s: QuizState)
    ensures AnsiedadeDeitar in AntesDerived(s) <==> HighAnxiety(s)
    ensures MedoRemedio in AntesDerived(s) <==> FearsRemedies(s)
    ensures ProdutividadeQueda in AntesDerived(s) <==> "produtividade" in s.impactos
    ensures AnsiedadeDeitar !in AntesFallbacks && MedoRemedio !in AntesFallbacks && ProdutividadeQueda !in AntesFallbacks
  {
  }

  /** At most one bullet comes from the diagnosis, and it is that diagnosis's own. */
  lemma AntesOneDiagnosis(s: QuizState, d: Diagnostico)
    requires DiagnosticoBullet(d).Some? && DiagnosticoBullet(d).value in Antes(s)
    ensures s.diagnostico == Some(d)
  {
    AntesShape(s);
    assert DiagnosticoBullet(d).value !in AntesFallbacks;
  }

  /** Impacts chosen from step 9's options never yield the productivity bullet, since "produtividade" is not among them. */
  lemma NoProductivityFromOptions(s: QuizState)
    requires forall v :: v in s.impactos ==> v in QuizContent.OptionValues(QuizContent.MultipleChoiceOptions(9))
    ensures ProdutividadeQueda !in Antes(s)
  {
    QuizContent.ImpactKeywords();
    AntesAnswerBullets(s);
  }

  /** The derived bullets and the fallbacks all belong to the "Antes" list. */
  lemma AntesDerivedOfList(s: QuizState)
    ensures OfList(AntesDerived(s) + AntesFallbacks, true)
  {
  }

  /** `getAntesBullets`: push the answer bullets, top up when fewer than three, keep the first four. */
  method GetAntesBullets(s: QuizState) returns (bullets: seq<string>)
    ensures bullets == Texts(Antes(s))
  {
    var derived := PushAntes(s);
    AntesDerivedOfList(s);
    OfListInjective(derived + AntesFallbacks, true);
    ghost var filled: seq<Bullet> := derived;
    if |derived| < 3 {
      bullets := FillBullets(derived, AntesFallbacks, TextOf);
      filled := Fill(derived, AntesFallbacks);
    } else {
      bullets := Texts(derived);
    }
    assert Antes(s) == FirstFour(filled);
    bullets := FirstFour(bullets);
    MapFirstFour(filled, TextOf);
  }

  /** The pushes of `getAntesBullets` that come from the answers. */
  method PushAntes(s: QuizState) returns (derived: seq<Bullet>)
    ensures derived == AntesDerived(s)
  {
    derived := [];
    if s.diagnostico == Some(Demoro) {
      derived := derived + [Demora];
    }
    if s.diagnostico == Some(AcordoVarias) {
      derived := derived + [AcordaVarias];
    }
    if s.diagnostico == Some(AcordoCansado) {
      derived := derived + [AcordaCansado];
    }
    assert derived == if s.diagnostico.Some? && DiagnosticoBullet(s.diagnostico.value).Some? then [DiagnosticoBullet(s.diagnostico.value).value] else [];
    if HighAnxiety(s) {
      derived := derived + [AnsiedadeDeitar];
    }
    if FearsRemedies(s) {
      derived := derived + [MedoRemedio];
    }
    if "produtividade" in s.impactos {
      derived := derived + [ProdutividadeQueda];
    }
  }

  /** The page shows three or four distinct "Antes" lines. */
  lemma AntesTextsShape(s: QuizState)
    ensures 3 <= |Texts(Antes(s))| <= 4 && Unique(Texts(Antes(s)))
  {
    AntesShape(s);
    TextsUnique(Antes(s), true);
  }

  // ---------------------------------------------------------------- Depois

  const DepoisFallbacks := [SonoRegulado, NoitesTranquilas, MenteRelaxada, DespertarRenovado]

  /** The bullets derived from the wishes and the flags, before any fallback. */
  function DepoisDerived(s: QuizState): seq<Bullet> {
    (if "dormir_rapido" in s.desejos then [DormirRapido] else []) +
    (if "energia" in s.desejos then [AcordarLeve] else []) +
    (if s.flags.branchHighAnsiedade then [RotinaAntiAnsiedade] else []) +
    (if s.flags.branchHeavyRemedios then [SemRemedios] else [])
  }

  /** `getDepoisBullets` as a function: always topped up. */
  function Depois(s: QuizState): seq<Bullet> {
    FirstFour(Fill(DepoisDerived(s), DepoisFallbacks))
  }

  /** Exactly four distinct bullets of the "Depois" list, the derived ones first and in order, the rest fallbacks. */
  lemma DepoisShape(s: QuizState)
    ensures |Depois(s)| == 4 && Unique(Depois(s)) && OfList(Depois(s), false)
    ensures DepoisDerived(s) <= Depois(s)
    ensures forall b :: b in Depois(s) ==> b in DepoisDerived(s) || b in DepoisFallbacks
  {
    var derived := DepoisDerived(s);
    FillKeeps(derived, DepoisFallbacks);
    FillAddsOnlyFallbacks(derived, DepoisFallbacks);
    FillCount(derived, DepoisFallbacks);
    assert Depois(s) == Fill(derived, DepoisFallbacks);
  }

  /** Each wish or flag bullet appears exactly when its wish is chosen or its flag is set. */
  lemma DepoisAnswerBullets(s: QuizState)
    ensures RotinaAntiAnsiedade in Depois(s) <==> s.flags.branchHighAnsiedade
    ensures SemRemedios in Depois(s) <==> s.flags.branchHeavyRemedios
    ensures DormirRapido in Depois(s) <==> "dormir_rapido" in s.desejos
    ensures AcordarLeve in Depois(s) <==> "energia" in s.desejos
  {
    DepoisShape(s);
    DepoisDerivedMembers(s);
    assert forall b :: b in DepoisDerived(s) ==> b in Depois(s);
  }

  lemma DepoisDerivedMembers(s: QuizState)
    ensures RotinaAntiAnsiedade in DepoisDerived(s) <==> s.flags.branchHighAnsiedade
    ensures SemRemedios in DepoisDerived(s) <==> s.flags.branchHeavyRemedios
    ensures DormirRapido in DepoisDerived(s) <==> "dormir_rapido" in s.desejos
    ensures AcordarLeve in DepoisDerived(s) <==> "energia" in s.desejos
    ensures forall b :: b in DepoisFallbacks ==> b !in DepoisDerived(s)
  {
  }

  /** Wishes chosen from step 11's options never yield the two wish bullets: only flags and fallbacks fill the list. */
  lemma WishBulletsUnreachable(s: QuizState)
    requires forall v :: v in s.desejos ==> v in QuizContent.OptionValues(QuizContent.MultipleChoiceOptions(11))
    ensures DormirRapido !in Depois(s) && AcordarLeve !in Depois(s)
  {
    QuizContent.WishKeywords();
    QuizContent.EnergiaIsNoWish();
    DepoisAnswerBullets(s);
  }

  /** The derived bullets and the fallbacks all belong to the "Depois" list. */
  lemma DepoisDerivedOfList(s: QuizState)
    ensures OfList(DepoisDerived(s) + DepoisFallbacks, false)
  {
  }

  /** `getDepoisBullets`: push the wish and flag bullets, top up, keep the first four. */
  method GetDepoisBullets(s: QuizState) returns (bullets: seq<string>)
    ensures bullets == Texts(Depois(s))
  {
    var derived: seq<Bullet> := [];
    if "dormir_rapido" in s.desejos {
      derived := derived + [DormirRapido];
    }
    if "energia" in s.desejos {
      derived := derived + [AcordarLeve];
    }
    if s.flags.branchHighAnsiedade {
      derived := derived + [RotinaAntiAnsiedade];
    }
    if s.flags.branchHeavyRemedios {
      derived := derived + [SemRemedios];
    }
    assert derived == DepoisDerived(s);
    DepoisDerivedOfList(s);
    OfListInjective(derived + DepoisFallbacks, false);
    bullets := FillBullets(derived, DepoisFallbacks, TextOf);
    bullets := FirstFour(bullets);
    MapFirstFour(Fill(derived, DepoisFallbacks), TextOf);
  }

  /** The page shows exactly four distinct "Depois" lines. */
  lemma DepoisTextsShape(s: QuizState)
    ensures |Texts(Depois(s))| == 4 && Unique(Texts(Depois(s)))
  {
    DepoisShape(s);
    TextsUnique(Depois(s), false);
  }

  // ---------------------------------------------------------------- the page

  /** `hasPrerequisites`: name, e-mail, consent and session id all truthy; otherwise the error panel is shown. */
  predicate HasPrerequisites(s: QuizState) {
    s.nome != [] && s.email != [] && s.consent && s.sessionId != []
  }

  /**
   * A state that passed the form step's validation meets the prerequisites
   * exactly when it has a session id.
   */
  lemma FormValidMeetsPrerequisites(s: QuizState)
    ensures QuizEngine.ValidateStep(s, 6).Valid? ==> (HasPrerequisites(s) <==> s.sessionId != [])
  {
    QuizEngine.StepSixPriority(s);
  }

  /** The prerequisite test itself is weaker than that validation: it accepts a one-letter name. */
  lemma OneLetterNameMeetsPrerequisites(s: QuizState)
    requires s.nome == "A" && s.sessionId != [] && IsValidEmail(s.email) && s.consent
    ensures HasPrerequisites(s) && QuizEngine.ValidateStep(s, 6).Invalid?
  {
    OneLetterRejected();
    QuizEngine.StepSixPriority(s);
  }

  lemma OneLetterRejected()
    ensures !QuizEngine.NomeAcceptable("A")
  {
    assert Trim("A") == "A";
  }

  const CheckoutError := "Erro ao processar checkout. Tente novamente."

  /**
   * The final snapshot the offer page posts to the lead endpoint: the whole
   * state, its completion time (the click's time when the state has none),
   * and the `meta` block with the variant string, the source "quiz" and the
   * time it was issued.
   */
  datatype Snapshot = Snapshot(state: QuizState, completedAt: int, variant: string, issuedAt: int)

  function FinalSnapshot(state: QuizState, now: int): Snapshot {
    Snapshot(state, if CompletedAtTruthy(state) then state.completedAt.value else now,
             VariantString(state.flags), now)
  }

  /** The offer page for one state: its loading flag, snapshot and checkout posts, errors and redirect. */
  class OfferView {
    const state: QuizState
    var isLoading: bool
    /** Whether the session's `final_snapshot_sent` key is set in the tab's session storage. */
    var snapshotSent: bool
    /** Every final snapshot posted to the lead endpoint. */
    var snapshots: seq<Snapshot>
    /** The variant string of every checkout request sent. */
    var checkouts: seq<string>
    /** Every message passed to `onError`. */
    var errors: seq<string>
    /** The checkout URL the page was sent to, if any. */
    var redirect: Option<string>

    /** The page opened on `state`, with the session's snapshot key as the tab holds it. */
    constructor (state: QuizState, snapshotSent: bool)
      ensures this.state == state && !isLoading && this.snapshotSent == snapshotSent
      ensures snapshots == [] && checkouts == [] && errors == [] && redirect.None?
    {
      this.state := state;
      isLoading := false;
      this.snapshotSent := snapshotSent;
      snapshots := [];
      checkouts := [];
      errors := [];
      redirect := None;
    }

    /**
     * `sendFinalSnapshot`: nothing when the session's key is set; otherwise
     * one snapshot is posted and the key is set only when the lead endpoint
     * accepted it. A failure is swallowed.
     */
    method SendFinalSnapshot(now: int, accepted: bool)
      modifies this
      ensures snapshots == old(snapshots) + (if old(snapshotSent) then [] else [FinalSnapshot(state, now)])
      ensures snapshotSent == (old(snapshotSent) || accepted)
      ensures isLoading == old(isLoading) && checkouts == old(checkouts)
      ensures errors == old(errors) && redirect == old(redirect)
    {
      if snapshotSent {
        return;
      }
      snapshots := snapshots + [FinalSnapshot(state, now)];
      if accepted {
        snapshotSent := true;
      }
    }

    /**
     * `handleCTAClick`: ignored while loading; otherwise sends the final
     * snapshot (once per session), then requests a checkout for the variant
     * and either redirects (staying in the loading state) or reports the
     * error and stops loading. `snapshotAccepted` is whether the lead
     * endpoint accepted the snapshot, which never changes the checkout;
     * `url` is None when the checkout request fails.
     */
    method HandleCTAClick(now: int, snapshotAccepted: bool, url: Option<string>)
      modifies this
      ensures old(isLoading) ==> isLoading && checkouts == old(checkouts) && errors == old(errors) && redirect == old(redirect)
      ensures old(isLoading) ==> snapshots == old(snapshots) && snapshotSent == old(snapshotSent)
      ensures !old(isLoading) ==>
        snapshots == old(snapshots) + (if old(snapshotSent) then [] else [FinalSnapshot(state, now)])
      ensures !old(isLoading) ==> snapshotSent == (old(snapshotSent) || snapshotAccepted)
      ensures !old(isLoading) ==> checkouts == old(checkouts) + [VariantString(state.flags)]
      ensures !old(isLoading) ==> isLoading == url.Some?
      ensures !old(isLoading) && url.Some? ==> redirect == url && errors == old(errors)
      ensures !old(isLoading) && url.None? ==> redirect == old(redirect) && errors == old(errors) + [CheckoutError]
    {
      if isLoading {
        return;
      }
      isLoading := true;
      SendFinalSnapshot(now, snapshotAccepted);
      checkouts := checkouts + [VariantString(state.flags)];
      if url.None? {
        isLoading := false;
        errors := errors + [CheckoutError];
      } else {
        redirect := url;
      }
    }
  }
}
