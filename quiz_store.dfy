/**
 * The quiz store: one mutable quiz state, merged field by field by
 * `setState`, persisted after every change and broadcast to a set of
 * listeners. Answer setters raise branching flags that nothing but `reset`
 * lowers; reaching step 18 stamps the completion time. The store carries its
 * own validity and skip tables, separate from the engine's.
 *
 * Persistence to session storage is the ghost field `persisted`; a listener
 * is an identifier, and each call made to it is recorded in `deliveries`.
 */
module QuizStore {
  import opened Wrappers
  import opened QuizTypes
  import opened QuizEngine
  import opened JsText

  type ListenerId = nat

  /** A partial state for `setState`: `None` leaves a field as it is. */
  datatype Patch = Patch(
    sessionId: Option<string>,
    startedAt: Option<int>,
    completedAt: Option<int>,
    step: Option<int>,
    nome: Option<string>,
    email: Option<string>,
    consent: Option<bool>,
    idade: Option<AgeRange>,
    diagnostico: Option<Diagnostico>,
    horas: Option<Horas>,
    remedios: Option<Remedios>,
    ansiedade: Option<Ansiedade>,
    impactos: Option<seq<string>>,
    consequencias: Option<seq<string>>,
    desejos: Option<seq<string>>,
    conhecimento: Option<Conhecimento>,
    direcionamento: Option<Direcionamento>,
    micro: Option<MicroCompromisso>,
    flags: Option<Flags>)

  const EmptyPatch := Patch(None, None, None, None, None, None, None, None, None, None,
                            None, None, None, None, None, None, None, None, None)

  /** `{ ...state, ...updates }`. */
  function Merge(s: QuizState, p: Patch): QuizState {
    QuizState(
      p.sessionId.GetOr(s.sessionId),
      p.startedAt.GetOr(s.startedAt),
      if p.completedAt.Some? then p.completedAt else s.completedAt,
      p.step.GetOr(s.step),
      p.nome.GetOr(s.nome),
      p.email.GetOr(s.email),
      p.consent.GetOr(s.consent),
      if p.idade.Some? then p.idade else s.idade,
      if p.diagnostico.Some? then p.diagnostico else s.diagnostico,
      if p.horas.Some? then p.horas else s.horas,
      if p.remedios.Some? then p.remedios else s.remedios,
      if p.ansiedade.Some? then p.ansiedade else s.ansiedade,
      p.impactos.GetOr(s.impactos),
      p.consequencias.GetOr(s.consequencias),
      p.desejos.GetOr(s.desejos),
      if p.conhecimento.Some? then p.conhecimento else s.conhecimento,
      if p.direcionamento.Some? then p.direcionamento else s.direcionamento,
      if p.micro.Some? then p.micro else s.micro,
      p.flags.GetOr(s.flags))
  }

  /** Merging nothing changes nothing, and merging the same patch twice is merging it once. */
  lemma MergeLaws(s: QuizState, p: Patch)
    ensures Merge(s, EmptyPatch) == s
    ensures Merge(Merge(s, p), p) == Merge(s, p)
  {
  }

  /** A field the patch gives takes the given value; a field it does not give keeps its value. */
  lemma MergeOnlyGivenFields(s: QuizState, p: Patch)
    ensures p.step.Some? ==> Merge(s, p).step == p.step.value
    ensures p.step.None? ==> Merge(s, p).step == s.step
    ensures p.flags.Some? ==> Merge(s, p).flags == p.flags.value
    ensures p.flags.None? ==> Merge(s, p).flags == s.flags
    ensures p.completedAt.None? ==> Merge(s, p).completedAt == s.completedAt
    ensures p.sessionId.None? ==> Merge(s, p).sessionId == s.sessionId
  {
  }

  /** The state `createInitialState` builds: step 1, no answers and no flags. */
  function InitialState(freshId: string, now: int): QuizState {
    QuizState(freshId, now, None, 1, "", "", false, None, None, None, None, None,
              [], [], [], None, None, None, NoFlags)
  }

  /** The stored state is taken only with a truthy sessionId and a truthy startedAt. */
  predicate Resumable(s: QuizState) {
    s.sessionId != [] && s.startedAt != 0
  }

  /** One answer, as one of the store's typed setters receives it. */
  datatype Answer =
    | SetIdade(idade: AgeRange)
    | SetDiagnostico(diagnostico: Diagnostico)
    | SetHoras(horas: Horas)
    | SetRemedios(remedios: Remedios)
    | SetAnsiedade(ansiedade: Ansiedade)
    | SetImpactos(impactos: seq<string>)
    | SetConsequencias(consequencias: seq<string>)
    | SetDesejos(desejos: seq<string>)
    | SetConhecimento(conhecimento: Conhecimento)
    | SetDirecionamento(direcionamento: Direcionamento)
    | SetMicro(micro: MicroCompromisso)
    | SetNome(nome: string)
    | SetEmail(email: string)
    | SetConsent(consent: bool)

  /** The state after the answer's field is written, before any flag is raised. */
  function Answered(s: QuizState, a: Answer): QuizState {
    match a
    case SetIdade(v) => s.(idade := Some(v))
    case SetDiagnostico(v) => s.(diagnostico := Some(v))
    case SetHoras(v) => s.(horas := Some(v))
    case SetRemedios(v) => s.(remedios := Some(v))
    case SetAnsiedade(v) => s.(ansiedade := Some(v))
    case SetImpactos(v) => s.(impactos := v)
    case SetConsequencias(v) => s.(consequencias := v)
    case SetDesejos(v) => s.(desejos := v)
    case SetConhecimento(v) => s.(conhecimento := Some(v))
    case SetDirecionamento(v) => s.(direcionamento := Some(v))
    case SetMicro(v) => s.(micro := Some(v))
    case SetNome(v) => s.(nome := v)
    case SetEmail(v) => s.(email := v)
    case SetConsent(v) => s.(consent := v)
  }

  /** The one-field patch a setter passes to `setState`. */
  function AnswerPatch(a: Answer): Patch {
    match a
    case SetIdade(v) => EmptyPatch.(idade := Some(v))
    case SetDiagnostico(v) => EmptyPatch.(diagnostico := Some(v))
    case SetHoras(v) => EmptyPatch.(horas := Some(v))
    case SetRemedios(v) => EmptyPatch.(remedios := Some(v))
    case SetAnsiedade(v) => EmptyPatch.(ansiedade := Some(v))
    case SetImpactos(v) => EmptyPatch.(impactos := Some(v))
    case SetConsequencias(v) => EmptyPatch.(consequencias := Some(v))
    case SetDesejos(v) => EmptyPatch.(desejos := Some(v))
    case SetConhecimento(v) => EmptyPatch.(conhecimento := Some(v))
    case SetDirecionamento(v) => EmptyPatch.(direcionamento := Some(v))
    case SetMicro(v) => EmptyPatch.(micro := Some(v))
    case SetNome(v) => EmptyPatch.(nome := Some(v))
    case SetEmail(v) => EmptyPatch.(email := Some(v))
    case SetConsent(v) => EmptyPatch.(consent := Some(v))
  }

  /** Merging a setter's patch writes exactly the answer's field. */
  lemma AnsweredByPatch(s: QuizState, a: Answer)
    ensures Merge(s, AnswerPatch(a)) == Answered(s, a)
    ensures Answered(s, a).flags == s.flags
  {
  }

  /** Whether the answer raises a flag, which the setter does in a second `setState`. */
  predicate RaisesFlag(a: Answer) {
    a == SetDiagnostico(SemProblemas) || a == SetRemedios(Frequente) ||
    a == SetAnsiedade(Sempre) || a == SetAnsiedade(Muitas) ||
    a == SetConhecimento(Tentei) || a == SetMicro(MedoFalhar)
  }

  /** The flags after the answer: its trigger value sets its one flag to true. */
  function RaisedFlags(f: Flags, a: Answer): Flags {
    match a
    case SetDiagnostico(SemProblemas) => f.(branchNoProblems := true)
    case SetRemedios(Frequente) => f.(branchHeavyRemedios := true)
    case SetAnsiedade(v) => if v == Sempre || v == Muitas then f.(branchHighAnsiedade := true) else f
    case SetConhecimento(Tentei) => f.(experienced := true)
    case SetMicro(MedoFalhar) => f.(reassurance := true)
    case _ => f
  }

  /** The state after a setter: the field written, then the flag raised. */
  function ApplyAnswer(s: QuizState, a: Answer): QuizState {
    Answered(s, a).(flags := RaisedFlags(s.flags, a))
  }

  /** No answer lowers a flag. */
  lemma AnswerKeepsFlags(s: QuizState, a: Answer)
    ensures FlagsWithin(s.flags, ApplyAnswer(s, a).flags)
    ensures !RaisesFlag(a) ==> ApplyAnswer(s, a).flags == s.flags
  {
  }

  /** The lead setters write their one field and raise no flag. */
  lemma LeadSetters(s: QuizState, nome: string, email: string, consent: bool)
    ensures ApplyAnswer(s, SetNome(nome)) == s.(nome := nome)
    ensures ApplyAnswer(s, SetEmail(email)) == s.(email := email)
    ensures ApplyAnswer(s, SetConsent(consent)) == s.(consent := consent)
  {
  }

  /** Each trigger answer sets exactly its own flag and keeps the other four. */
  lemma TriggerSetsOneFlag(s: QuizState, a: Answer)
    ensures a == SetDiagnostico(SemProblemas) ==> ApplyAnswer(s, a).flags == s.flags.(branchNoProblems := true)
    ensures a == SetRemedios(Frequente) ==> ApplyAnswer(s, a).flags == s.flags.(branchHeavyRemedios := true)
    ensures a in {SetAnsiedade(Sempre), SetAnsiedade(Muitas)} ==> ApplyAnswer(s, a).flags == s.flags.(branchHighAnsiedade := true)
    ensures a == SetConhecimento(Tentei) ==> ApplyAnswer(s, a).flags == s.flags.(experienced := true)
    ensures a == SetMicro(MedoFalhar) ==> ApplyAnswer(s, a).flags == s.flags.(reassurance := true)
  {
  }

  function ApplyAll(s: QuizState, answers: seq<Answer>): QuizState
    decreases |answers|
  {
    if answers == [] then s else ApplyAll(ApplyAnswer(s, answers[0]), answers[1..])
  }

  /** Flags only grow over any run of answers. */
  lemma {:induction false} FlagsGrowOverRun(s: QuizState, answers: seq<Answer>)
    ensures FlagsWithin(s.flags, ApplyAll(s, answers).flags)
    decreases |answers|
  {
    if answers != [] {
      AnswerKeepsFlags(s, answers[0]);
      FlagsGrowOverRun(ApplyAnswer(s, answers[0]), answers[1..]);
    }
  }

  /**
   * The flag outlives the answer that raised it: after "sem_problemas" and
   * then another diagnosis, step 4 goes on to step 5 but step 6 still skips
   * to step 10.
   */
  lemma FlagOutlivesAnswer(s: QuizState, d: Diagnostico)
    requires d != SemProblemas
    ensures var t := ApplyAll(s, [SetDiagnostico(SemProblemas), SetDiagnostico(d)]);
      t.flags.branchNoProblems && t.diagnostico == Some(d) &&
      NextStep(t.(step := 4)).targetStep == 5 &&
      (ValidateStep(t, 6).Valid? ==> NextStep(t.(step := 6)).targetStep == 10)
  {
    var run := [SetDiagnostico(SemProblemas), SetDiagnostico(d)];
    var mid := ApplyAnswer(s, SetDiagnostico(SemProblemas));
    assert run[1..] == [SetDiagnostico(d)];
    assert [SetDiagnostico(d)][1..] == [];
    assert ApplyAll(s, run) == ApplyAll(mid, [SetDiagnostico(d)]);
    assert ApplyAll(mid, [SetDiagnostico(d)]) == ApplyAnswer(mid, SetDiagnostico(d));
  }

  /** `setStep`: the cursor moves, and reaching step 18 stamps the completion time when it is not yet truthy. */
  function StepSet(s: QuizState, step: int, now: int): (t: QuizState)
    ensures t.step == step && t.flags == s.flags
    ensures step != FinalStep ==> t.completedAt == s.completedAt
    ensures step == FinalStep && CompletedAtTruthy(s) ==> t.completedAt == s.completedAt
    ensures step == FinalStep && !CompletedAtTruthy(s) ==> t.completedAt == Some(now)
  {
    var moved := s.(step := step);
    if step == 18 && !CompletedAtTruthy(moved) then moved.(completedAt := Some(now)) else moved
  }

  /** The store's own validity table. */
  function IsStepValid(s: QuizState, step: int): bool {
    if step == 2 then s.idade.Some?
    else if step == 4 then s.diagnostico.Some?
    else if step == 5 then ShouldSkipStep(s, 5) || s.horas.Some?
    else if step == 6 then s.nome != [] && s.email != [] && s.consent
    else if step == 7 then ShouldSkipStep(s, 7) || s.remedios.Some?
    else if step == 8 then ShouldSkipStep(s, 8) || s.ansiedade.Some?
    else if step == 9 then ShouldSkipStep(s, 9) || s.impactos != []
    else if step == 10 then s.consequencias != []
    else if step == 11 then s.desejos != []
    else if step == 13 then s.conhecimento.Some?
    else if step == 14 then s.direcionamento.Some?
    else if step == 16 then s.micro.Some?
    else true
  }

  function ShouldSkipStep(s: QuizState, step: int): bool {
    if step in {5, 7, 8, 10} then s.flags.branchNoProblems
    else if step == 9 then s.flags.branchNoProblems || s.ansiedade == Some(NuncaAnsiedade)
    else false
  }

  /** Whatever the engine accepts, the store accepts too. */
  lemma EngineValidImpliesStoreValid(s: QuizState, step: int)
    requires ValidateStep(s, step).Valid?
    ensures IsStepValid(s, step)
  {
    if step == 6 {
      assert IndexOf(s.email, '@') > 0;
    }
  }

  /** Away from step 6 the two tables agree exactly. */
  lemma StoreValidMatchesEngineOffSix(s: QuizState, step: int)
    requires step != 6
    ensures IsStepValid(s, step) <==> ValidateStep(s, step).Valid?
  {
  }

  /** At step 6 the store accepts a one-letter name the engine refuses. */
  lemma StepSixTablesDisagree(s: QuizState)
    requires s.nome == "A" && IsValidEmail(s.email) && s.consent
    ensures IsStepValid(s, 6)
    ensures ValidateStep(s, 6) == Invalid(MsgNome)
  {
    assert Trim("A") == "A";
    assert IndexOf(s.email, '@') > 0;
  }

  /** The skip table covers the steps the engine's forward table jumps over on each branch. */
  lemma SkippedStepsAreSkippable(s: QuizState)
    requires ValidateStep(s, s.step).Valid?
    ensures s.step == 4 && s.diagnostico == Some(SemProblemas) && s.flags.branchNoProblems ==> ShouldSkipStep(s, 5)
    ensures s.step == 6 && NextStep(s).targetStep == 10 ==> ShouldSkipStep(s, 7) && ShouldSkipStep(s, 8) && ShouldSkipStep(s, 9)
    ensures s.step == 8 && NextStep(s).targetStep == 10 ==> ShouldSkipStep(s, 9)
  {
  }

  function Broadcast(ls: seq<ListenerId>, snapshot: QuizState): (r: seq<(ListenerId, QuizState)>)
    ensures |r| == |ls|
    ensures forall k :: 0 <= k < |ls| ==> r[k] == (ls[k], snapshot)
  {
    if ls == [] then [] else Broadcast(ls[..|ls| - 1], snapshot) + [(ls[|ls| - 1], snapshot)]
  }

  predicate Distinct(ls: seq<ListenerId>) {
    forall i, j :: 0 <= i < j < |ls| ==> ls[i] != ls[j]
  }

  /** `listeners.delete(l)`: every other listener, in order. */
  function Without(ls: seq<ListenerId>, l: ListenerId): (r: seq<ListenerId>)
    ensures l !in r
    ensures forall m :: m in r <==> m in ls && m != l
  {
    if ls == [] then []
    else if ls[|ls| - 1] == l then Without(ls[..|ls| - 1], l)
    else Without(ls[..|ls| - 1], l) + [ls[|ls| - 1]]
  }

  /** Removing a listener keeps the others free of repeats. */
  lemma {:induction false} WithoutKeepsDistinct(ls: seq<ListenerId>, l: ListenerId)
    requires Distinct(ls)
    ensures Distinct(Without(ls, l))
  {
    if ls != [] {
      var front, last := ls[..|ls| - 1], ls[|ls| - 1];
      assert Distinct(front) by {
        forall i, j | 0 <= i < j < |front| ensures front[i] != front[j] {
          assert front[i] == ls[i] && front[j] == ls[j];
        }
      }
      WithoutKeepsDistinct(front, l);
      if last != l {
        var w := Without(front, l);
        assert last !in front by {
          forall i | 0 <= i < |front| ensures front[i] != last {
            assert front[i] == ls[i];
          }
        }
        assert last !in w;
        var r := w + [last];
        forall i, j | 0 <= i < j < |r| ensures r[i] != r[j] {
          if j < |w| {
            assert r[i] == w[i] && r[j] == w[j];
          } else {
            assert r[i] == w[i];
          }
        }
      }
    }
  }

  class Store {
    var state: QuizState
    /** The listener set, in insertion order. */
    var listeners: seq<ListenerId>
    /** Every call made to a listener, with the snapshot it received. */
    var deliveries: seq<(ListenerId, QuizState)>
    /** The copy in session storage. */
    ghost var persisted: QuizState

    ghost predicate Valid()
      reads this
    {
      Distinct(listeners) && persisted == state
    }

    /** Resume the stored state when it passes the load check, otherwise start afresh; then save. */
    constructor (stored: Option<QuizState>, freshId: string, now: int)
      ensures Valid()
      ensures state == if stored.Some? && Resumable(stored.value) then stored.value else InitialState(freshId, now)
      ensures listeners == [] && deliveries == []
    {
      state := if stored.Some? && Resumable(stored.value) then stored.value else InitialState(freshId, now);
      listeners := [];
      deliveries := [];
      persisted := state;
    }

    method Subscribe(l: ListenerId)
      requires Valid()
      modifies this
      ensures Valid()
      ensures listeners == if l in old(listeners) then old(listeners) else old(listeners) + [l]
      ensures state == old(state) && deliveries == old(deliveries)
    {
      if l !in listeners {
        listeners := listeners + [l];
      }
    }

    /** The function `subscribe` returns. */
    method Unsubscribe(l: ListenerId)
      requires Valid()
      modifies this
      ensures Valid()
      ensures listeners == Without(old(listeners), l)
      ensures state == old(state) && deliveries == old(deliveries)
    {
      WithoutKeepsDistinct(listeners, l);
      listeners := Without(listeners, l);
    }

    /** Calls every listener once with a snapshot of the state; a listener that throws is caught and the rest still run. */
    method Notify()
      modifies this
      ensures deliveries == old(deliveries) + Broadcast(listeners, state)
      ensures state == old(state) && listeners == old(listeners) && persisted == old(persisted)
    {
      var snapshot := state;
      var i := 0;
      while i < |listeners|
        invariant 0 <= i <= |listeners|
        invariant deliveries == old(deliveries) + Broadcast(listeners[..i], snapshot)
        invariant state == old(state) && listeners == old(listeners) && persisted == old(persisted)
      {
        assert listeners[..i + 1][..i] == listeners[..i];
        deliveries := deliveries + [(listeners[i], snapshot)];
        i := i + 1;
      }
      assert listeners[..i] == listeners;
    }

    /** `setState`: merge, save, notify. */
    method SetState(p: Patch)
      requires Valid()
      modifies this
      ensures Valid()
      ensures state == Merge(old(state), p)
      ensures listeners == old(listeners)
      ensures deliveries == old(deliveries) + Broadcast(listeners, state)
    {
      state := Merge(state, p);
      persisted := state;
      Notify();
    }

    method SetStep(step: int, now: int)
      requires Valid()
      modifies this
      ensures Valid()
      ensures state == StepSet(old(state), step, now)
      ensures listeners == old(listeners)
      ensures deliveries == old(deliveries) + Broadcast(listeners, old(state).(step := step)) +
        (if step == FinalStep && !CompletedAtTruthy(old(state)) then Broadcast(listeners, state) else [])
    {
      SetState(EmptyPatch.(step := Some(step)));
      if step == 18 && !CompletedAtTruthy(state) {
        Complete(now);
      }
    }

    /** `complete()`: always overwrites the completion time. */
    method Complete(now: int)
      requires Valid()
      modifies this
      ensures Valid()
      ensures state == old(state).(completedAt := Some(now))
      ensures listeners == old(listeners)
      ensures deliveries == old(deliveries) + Broadcast(listeners, state)
    {
      SetState(EmptyPatch.(completedAt := Some(now)));
    }

    /** The answer setters: write the field and notify, then raise the flag and notify again when the answer triggers one. */
    method Apply(a: Answer)
      requires Valid()
      modifies this
      ensures Valid()
      ensures state == ApplyAnswer(old(state), a)
      ensures FlagsWithin(old(state).flags, state.flags)
      ensures listeners == old(listeners)
      ensures deliveries == old(deliveries) + Broadcast(listeners, Answered(old(state), a)) +
        (if RaisesFlag(a) then Broadcast(listeners, state) else [])
    {
      ghost var before := state;
      AnsweredByPatch(state, a);
      AnswerKeepsFlags(state, a);
      SetState(AnswerPatch(a));
      assert state == Answered(before, a);
      if RaisesFlag(a) {
        var raised := RaisedFlags(state.flags, a);
        assert raised == ApplyAnswer(before, a).flags;
        SetState(EmptyPatch.(flags := Some(raised)));
        assert state == ApplyAnswer(before, a);
      } else {
        assert ApplyAnswer(before, a) == Answered(before, a);
      }
    }

    /** `setLead`: the three lead fields in one `setState`. */
    method SetLead(nome: string, email: string, consent: bool)
      requires Valid()
      modifies this
      ensures Valid()
      ensures state == old(state).(nome := nome, email := email, consent := consent)
      ensures listeners == old(listeners)
      ensures deliveries == old(deliveries) + Broadcast(listeners, state)
    {
      SetState(EmptyPatch.(nome := Some(nome), email := Some(email), consent := Some(consent)));
    }

    /** `reset`: a fresh state with step 1 and no flags, saved and broadcast. */
    method Reset(freshId: string, now: int)
      requires Valid()
      modifies this
      ensures Valid()
      ensures state == InitialState(freshId, now)
      ensures listeners == old(listeners)
      ensures deliveries == old(deliveries) + Broadcast(listeners, state)
    {
      state := InitialState(freshId, now);
      persisted := state;
      Notify();
    }
  }
}
