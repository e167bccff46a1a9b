/**
 * The quiz state: the answer enumerations, the five branching flags, the
 * state record carried from step 1 to step 18, the result of a navigation
 * request and the two validation constants (minimum name length and the
 * e-mail pattern `^[^\s@]+@[^\s@]+\.[^\s@]+$`).
 *
 * An optional single answer is an `Option`; an optional text field (`nome`,
 * `email`) is a string that is empty when unset, and an optional list is a
 * sequence that is empty when unset, because every reader of the state
 * tests them by truthiness or by length. A flag that is unset reads false.
 */
module QuizTypes {
  import opened Wrappers
  import opened JsText

  /** The cursor runs over steps 1..18; step 18 is the offer. */
  const FirstStep := 1
  const FinalStep := 18
  const MinNameLength := 2

  datatype AgeRange = Age18To28 | Age29To38 | Age39To49 | Age50Plus {
    function Value(): string {
      match this
      case Age18To28 => "18-28"
      case Age29To38 => "29-38"
      case Age39To49 => "39-49"
      case Age50Plus => "50+"
    }
  }

  datatype Diagnostico = Demoro | AcordoVarias | AcordoCansado | SemProblemas {
    function Value(): string {
      match this
      case Demoro => "demoro"
      case AcordoVarias => "acordo_varias"
      case AcordoCansado => "acordo_cansado"
      case SemProblemas => "sem_problemas"
    }
  }

  datatype Horas = Under5 | From5To6 | From7To8 | Over8 {
    function Value(): string {
      match this
      case Under5 => "<5"
      case From5To6 => "5-6"
      case From7To8 => "7-8"
      case Over8 => ">8"
    }
  }

  datatype Remedios = Frequente | TenteiNaoResolveu | Pensei | NuncaRemedio {
    function Value(): string {
      match this
      case Frequente => "frequente"
      case TenteiNaoResolveu => "tentei_nao_resolveu"
      case Pensei => "pensei"
      case NuncaRemedio => "nunca"
    }
  }

  datatype Ansiedade = Sempre | Muitas | Raramente | NuncaAnsiedade {
    function Value(): string {
      match this
      case Sempre => "sempre"
      case Muitas => "muitas"
      case Raramente => "raramente"
      case NuncaAnsiedade => "nunca"
    }
  }

  datatype Conhecimento = Nada | Pouco | Tentei {
    function Value(): string {
      match this
      case Nada => "nada"
      case Pouco => "pouco"
      case Tentei => "tentei"
    }
  }

  datatype Direcionamento = Profundo | RapidoSemRemedio | Energia | ReduzirAnsiedade {
    function Value(): string {
      match this
      case Profundo => "profundo"
      case RapidoSemRemedio => "rapido_sem_remedio"
      case Energia => "energia"
      case ReduzirAnsiedade => "reduzir_ansiedade"
    }
  }

  datatype MicroCompromisso = Decidido | MudarHabitos | MedoFalhar {
    function Value(): string {
      match this
      case Decidido => "decidido"
      case MudarHabitos => "mudar_habitos"
      case MedoFalhar => "medo_falhar"
    }
  }

  /**
   * The branching flags. `experienced` is raised by conhecimento "tentei" and
   * `reassurance` by micro "medo_falhar".
   */
  datatype Flags = Flags(
    branchNoProblems: bool,
    branchHeavyRemedios: bool,
    branchHighAnsiedade: bool,
    experienced: bool,
    reassurance: bool)

  const NoFlags := Flags(false, false, false, false, false)

  /** Every flag set in `a` is set in `b`. */
  predicate FlagsWithin(a: Flags, b: Flags) {
    (a.branchNoProblems ==> b.branchNoProblems) &&
    (a.branchHeavyRemedios ==> b.branchHeavyRemedios) &&
    (a.branchHighAnsiedade ==> b.branchHighAnsiedade) &&
    (a.experienced ==> b.experienced) &&
    (a.reassurance ==> b.reassurance)
  }

  datatype QuizState = QuizState(
    sessionId: string,
    startedAt: int,
    completedAt: Option<int>,
    step: int,
    nome: string,
    email: string,
    consent: bool,
    idade: Option<AgeRange>,
    diagnostico: Option<Diagnostico>,
    horas: Option<Horas>,
    remedios: Option<Remedios>,
    ansiedade: Option<Ansiedade>,
    impactos: seq<string>,
    consequencias: seq<string>,
    desejos: seq<string>,
    conhecimento: Option<Conhecimento>,
    direcionamento: Option<Direcionamento>,
    micro: Option<MicroCompromisso>,
    flags: Flags)

  /** `!!state.completedAt`: set and not zero. */
  predicate CompletedAtTruthy(s: QuizState) {
    s.completedAt.Some? && s.completedAt.value != 0
  }

  datatype NavigationResult = NavigationResult(targetStep: int, canProceed: bool, validationError: Option<string>)

  datatype StepType = Presentation | SingleChoice | MultipleChoice | Form | Loading | Offer

  /** The position of the first `c` in `s`, or -1. */
  function IndexOf(s: string, c: char): (r: int)
    ensures -1 <= r < |s|
    ensures r >= 0 ==> s[r] == c && forall i :: 0 <= i < r ==> s[i] != c
    ensures r == -1 ==> forall i :: 0 <= i < |s| ==> s[i] != c
  {
    if s == [] then -1
    else if s[0] == c then 0
    else var k := IndexOf(s[1..], c); if k == -1 then -1 else k + 1
  }

  /** The position of the last `c` in `s`, or -1. */
  function LastIndexOf(s: string, c: char): (r: int)
    ensures -1 <= r < |s|
    ensures r >= 0 ==> s[r] == c && forall i :: r < i < |s| ==> s[i] != c
    ensures r == -1 ==> forall i :: 0 <= i < |s| ==> s[i] != c
  {
    if s == [] then -1
    else if s[|s| - 1] == c then |s| - 1
    else LastIndexOf(s[..|s| - 1], c)
  }

  /** A character the class `[^\s@]` accepts. */
  predicate EmailChar(c: char) {
    c != '@' && !IsSpace(c)
  }

  predicate EmailChars(s: string) {
    forall i :: 0 <= i < |s| ==> EmailChar(s[i])
  }

  /** `s` splits as `local@host.tld` at `@` position `a` and `.` position `b`, each part a non-empty run of `[^\s@]`. */
  predicate EmailSplit(s: string, a: int, b: int) {
    0 < a && a + 1 < b && b + 1 < |s| && s[a] == '@' && s[b] == '.' &&
    EmailChars(s[..a]) && EmailChars(s[a + 1..b]) && EmailChars(s[b + 1..])
  }

  /** The language of `^[^\s@]+@[^\s@]+\.[^\s@]+$`: some choice of the `@` and of a later `.` splits the string. */
  predicate EmailPattern(s: string) {
    exists a, b :: 0 <= a < b < |s| && EmailSplit(s, a, b)
  }

  /**
   * `EMAIL_REGEX.test(s)` by inspection: no whitespace, exactly one `@`, not
   * at the start, and a `.` in the domain that is neither its first nor its
   * last character.
   */
  predicate IsValidEmail(s: string) {
    var at := IndexOf(s, '@');
    var domain := if at >= 0 then s[at + 1..] else [];
    NoSpace(s) && at > 0 && at == LastIndexOf(s, '@') &&
    exists j :: 0 < j < |domain| - 1 && domain[j] == '.'
  }

  /** The characters of `s` from `lo` up to `hi` are all in `[^\s@]`. */
  lemma EmailCharsSlice(s: string, lo: int, hi: int)
    requires 0 <= lo <= hi <= |s|
    requires forall i :: lo <= i < hi ==> EmailChar(s[i])
    ensures EmailChars(s[lo..hi])
  {
    var t := s[lo..hi];
    forall i | 0 <= i < |t| ensures EmailChar(t[i]) {
      assert t[i] == s[lo + i];
    }
  }

  /** Every string the direct check accepts matches the regular expression. */
  lemma EmailCheckSound(s: string)
    requires IsValidEmail(s)
    ensures EmailPattern(s)
  {
    var at := IndexOf(s, '@');
    var domain := s[at + 1..];
    var j :| 0 < j < |domain| - 1 && domain[j] == '.';
    var b := at + 1 + j;
    assert s[b] == domain[j];
    forall i | 0 <= i < |s| && i != at ensures EmailChar(s[i]) {
      assert !IsSpace(s[i]);
    }
    EmailCharsSlice(s, 0, at);
    EmailCharsSlice(s, at + 1, b);
    EmailCharsSlice(s, b + 1, |s|);
    assert s[b + 1..|s|] == s[b + 1..];
    assert EmailSplit(s, at, b);
  }

  /** Every string the regular expression matches passes the direct check. */
  lemma EmailCheckComplete(s: string)
    requires EmailPattern(s)
    ensures IsValidEmail(s)
  {
    var a, b :| 0 <= a < b < |s| && EmailSplit(s, a, b);
    var local, host, tld := s[..a], s[a + 1..b], s[b + 1..];
    forall i | 0 <= i < |s| && i != a ensures EmailChar(s[i]) {
      if i < a {
        assert local[i] == s[i];
      } else if i == b {
      } else if i < b {
        assert host[i - a - 1] == s[i];
      } else {
        assert tld[i - b - 1] == s[i];
      }
    }
    var at := IndexOf(s, '@');
    assert at == a;
    assert LastIndexOf(s, '@') == a;
    var domain := s[a + 1..];
    assert domain[b - a - 1] == '.';
    assert NoSpace(s);
  }

  /** The direct check and the regular expression accept the same strings. */
  lemma EmailPatternIff(s: string)
    ensures IsValidEmail(s) <==> EmailPattern(s)
  {
    if IsValidEmail(s) {
      EmailCheckSound(s);
    }
    if EmailPattern(s) {
      EmailCheckComplete(s);
    }
  }
}
