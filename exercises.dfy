/**
 * The relaxation exercises page (components/ExercisesPage.tsx): the
 * catalogue, the choice between the list and a guide, and the phase machine
 * of the breathing guide, with its timer as the one pending transition.
 */
module Exercises {
  import opened Wrappers
  import opened Types
  import opened Text

  // ---------------------------------------------------------------------
  // The catalogue

  /** Every breathing exercise has timings and every meditation has steps. */
  predicate WellFormed(e: Exercise)
  {
    && (e.kind == Breathing ==> e.timings.Some?)
    && (e.kind == Meditation ==> e.steps.Some?)
  }

  // The texts of the catalogue.
  const BoxTitle := "Respiração Quadrada"
  const BoxText := "Uma técnica simples para acalmar o sistema nervoso e focar a mente."
  const RelaxingTitle := "Respiração 4-7-8"
  const RelaxingText := "Conhecida como \"respiração relaxante\", ajuda a reduzir a ansiedade e a induzir o sono."
  const DeepCalmTitle := "Respiração Profunda Calmante"
  const DeepCalmText := "Uma técnica fundamental para reduzir o estresse rapidamente, focando em expirações longas."
  const MindfulTitle := "Minuto de Atenção Plena"
  const MindfulText := "Um breve exercício para se conectar com o momento presente e observar seus pensamentos."
  const MindfulSteps := [
    "Sente-se confortavelmente e feche os olhos suavemente.",
    "Concentre-se no som e na sensação da sua respiração.",
    "Quando sua mente divagar, gentilmente traga o foco de volta para a respiração.",
    "Não há problema em ter pensamentos. Apenas observe-os sem julgamento.",
    "Continue por um minuto, simplesmente estando presente."]
  const BodyScanTitle := "Escaneamento Corporal"
  const BodyScanText := "Relaxe o corpo e a mente, prestando atenção gentil a cada parte do seu corpo, da cabeça aos pés."
  const BodyScanSteps := [
    "Deite-se ou sente-se confortavelmente. Feche os olhos.",
    "Leve sua atenção para os dedos dos pés. Sinta qualquer sensação sem julgamento.",
    "Lentamente, mova sua atenção para cima, através das solas dos pés, tornozelos, e pernas.",
    "Continue subindo pelo seu tronco, braços, até chegar ao topo da sua cabeça.",
    "Observe cada parte, liberando qualquer tensão que encontrar.",
    "Ao final, sinta seu corpo inteiro como um todo, relaxado e presente."]
  const EnergizingTitle := "Respiração Energizante"
  const EnergizingText := "Um exercício rápido para aumentar o foco e a energia quando se sentir sonolento ou desfocado."

  /** `exercises`: the six exercises the page offers, in order. */
  function Catalogue(): (c: seq<Exercise>)
    ensures |c| == 6
  {
    [ Exercise("box-breathing", BoxTitle, BoxText, "🌬️", Breathing, "2 Min", Some(Timings(4, 4, 4, Some(4))), None),
      Exercise("4-7-8-breathing", RelaxingTitle, RelaxingText, "🧘", Breathing, "2 Min", Some(Timings(4, 7, 8, None)), None),
      Exercise("deep-calm-breathing", DeepCalmTitle, DeepCalmText, "🌊", Breathing, "3 Min", Some(Timings(5, 2, 7, None)), None),
      Exercise("mindful-minute", MindfulTitle, MindfulText, "✨", Meditation, "1 Min", None, Some(MindfulSteps)),
      Exercise("body-scan-meditation", BodyScanTitle, BodyScanText, "👣", Meditation, "5 Min", None, Some(BodyScanSteps)),
      Exercise("energizing-breath", EnergizingTitle, EnergizingText, "⚡️", Breathing, "1 Min", Some(Timings(3, 1, 3, None)), None) ]
  }

  /** The ids of the catalogue, in order. */
  lemma CatalogueIds()
    ensures forall i :: 0 <= i < 6 ==>
      Catalogue()[i].id == ["box-breathing", "4-7-8-breathing", "deep-calm-breathing",
                            "mindful-minute", "body-scan-meditation", "energizing-breath"][i]
  {
    var c := Catalogue();
    assert c[0].id == "box-breathing" && c[1].id == "4-7-8-breathing" && c[2].id == "deep-calm-breathing";
    assert c[3].id == "mindful-minute" && c[4].id == "body-scan-meditation" && c[5].id == "energizing-breath";
  }

  /**
   * The catalogue is sound for the page: every breathing exercise has the
   * timings its guide unwraps, every meditation has steps, and no two
   * exercises share the id that keys their card.
   */
  lemma CatalogueWellFormed()
    ensures forall i :: 0 <= i < |Catalogue()| ==> WellFormed(Catalogue()[i])
    ensures forall i, j :: 0 <= i < j < |Catalogue()| ==> Catalogue()[i].id != Catalogue()[j].id
  {
    var c := Catalogue();
    assert WellFormed(c[0]) && WellFormed(c[1]) && WellFormed(c[2]);
    assert WellFormed(c[3]) && WellFormed(c[4]) && WellFormed(c[5]);
    CatalogueIds();
    var ids := ["box-breathing", "4-7-8-breathing", "deep-calm-breathing",
                "mindful-minute", "body-scan-meditation", "energizing-breath"];
    assert forall i, j :: 0 <= i < j < 6 ==> |ids[i]| != |ids[j]|;
  }

  // ---------------------------------------------------------------------
  // The page: the list or one guide

  /** What the page renders. */
  datatype Screen = ExerciseList | BreathingGuideFor(exercise: Exercise) | MeditationGuideFor(exercise: Exercise)

  /** The dispatch on `activeExercise` and its `type`. */
  function ScreenFor(active: Option<Exercise>): (s: Screen)
    ensures s == ExerciseList <==> active.None?
    ensures s.BreathingGuideFor? <==> active.Some? && active.value.kind == Breathing
    ensures s.MeditationGuideFor? <==> active.Some? && active.value.kind == Meditation
    ensures !s.ExerciseList? ==> s.exercise == active.value
  {
    match active
    case None => ExerciseList
    case Some(e) =>
      match e.kind
      case Breathing => BreathingGuideFor(e)
      case Meditation => MeditationGuideFor(e)
  }

  /** Any exercise of the catalogue opens a guide that has what it needs. */
  lemma CatalogueGuidesDefined(i: nat)
    requires i < |Catalogue()|
    ensures var s := ScreenFor(Some(Catalogue()[i]));
      && (s.BreathingGuideFor? ==> s.exercise.timings.Some?)
      && (s.MeditationGuideFor? ==> s.exercise.steps.Some?)
  {
    CatalogueWellFormed();
  }

  /** The page's one state: the exercise open, if any. */
  class ExercisesPage {
    var active: Option<Exercise>

    constructor()
      ensures ScreenFor(active) == ExerciseList
    {
      active := None;
    }

    /** A card of the list is clicked. */
    method Select(e: Exercise)
      modifies this
      ensures active == Some(e)
    {
      active := Some(e);
    }

    /** `onBack`: the guide is closed and the list shows again. */
    method Back()
      modifies this
      ensures active == None && ScreenFor(active) == ExerciseList
    {
      active := None;
    }
  }

  // ---------------------------------------------------------------------
  // The breathing phase machine

  const PrepareText := "Prepare-se..."
  /** The circle's resting and its full size, as CSS transforms. */
  const Shrunk := "scale(0.8)"
  const Expanded := "scale(1)"

  /** The circle's animation: a CSS transform and its transition duration. */
  datatype Style = Style(transform: string, transitionDuration: string)

  /** `${n}s`: the digits of `n`, which read back as `n`, then the unit. */
  function Seconds(n: nat): (r: string)
    ensures |r| >= 2 && r[|r| - 1] == 's'
    ensures IsDigits(r[..|r| - 1]) && DecimalValue(r[..|r| - 1]) == n
  {
    NatToStringRoundTrip(n);
    assert (NatToString(n) + "s")[..|NatToString(n)|] == NatToString(n);
    NatToString(n) + "s"
  }

  /** `hold2` counts only when present and not zero (JavaScript truthiness). */
  predicate HasHold2(t: Timings)
  {
    t.hold2.Some? && t.hold2.value != 0
  }

  /**
   * What one call of `runCycle(step)` does: the instruction it shows, the
   * style it sets (`None`: the style stays), and the step the timer it arms
   * will run after `delayMs`.
   */
  datatype Effect = Effect(instruction: string, style: Option<Style>, next: int, delayMs: nat)

  /** Phase 0: inhale, the circle grows, hold next. */
  function Inhale(t: Timings): (e: Effect)
    ensures e.style == Some(Style(Expanded, Seconds(t.inhale)))
    ensures e.next == 1 && e.delayMs == t.inhale * 1000
  {
    Effect("Inspire... (" + Seconds(t.inhale) + ")", Some(Style(Expanded, Seconds(t.inhale))), 1, t.inhale * 1000)
  }

  /** `runCycle(step)`, where phase 3 without `hold2`, and any unknown step, run phase 0 at once. */
  function Phase(t: Timings, step: int): (e: Effect)
    ensures 0 <= e.next <= 3
    ensures step == -1 ==> e == Effect(PrepareText, Some(Style(Shrunk, "2s")), 0, 2000)
    ensures step == 0 || (step == 3 && !HasHold2(t)) || step < -1 || step > 3 ==> e == Inhale(t)
    ensures step == 1 ==> e.next == 2 && e.delayMs == t.hold * 1000
    ensures step == 2 ==> && e.style == Some(Style(Shrunk, Seconds(t.exhale)))
                          && e.next == (if HasHold2(t) then 3 else 0)
                          && e.delayMs == t.exhale * 1000
    ensures step == 3 && HasHold2(t) ==> e.next == 0 && e.delayMs == t.hold2.value * 1000
    ensures e.style.None? <==> step == 1 || (step == 3 && HasHold2(t))
  {
    match step
    case -1 => Effect(PrepareText, Some(Style(Shrunk, "2s")), 0, 2000)
    case 0 => Inhale(t)
    case 1 => Effect("Segure... (" + Seconds(t.hold) + ")", None, 2, t.hold * 1000)
    case 2 => Effect("Expire... (" + Seconds(t.exhale) + ")", Some(Style(Shrunk, Seconds(t.exhale))),
                     if HasHold2(t) then 3 else 0, t.exhale * 1000)
    case 3 =>
      if HasHold2(t) then Effect("Segure... (" + Seconds(t.hold2.value) + ")", None, 0, t.hold2.value * 1000)
      else Inhale(t)
    case _ => Inhale(t)
  }

  /** The phases one round visits, from inhaling back to the next inhale. */
  function Round(t: Timings): (r: seq<int>)
    ensures |r| == if HasHold2(t) then 4 else 3
    ensures forall k :: 0 <= k < |r| ==> r[k] == k
  {
    if HasHold2(t) then [0, 1, 2, 3] else [0, 1, 2]
  }

  /** How long one round lasts, in milliseconds. */
  function RoundMs(t: Timings): nat
  {
    (t.inhale + t.hold + t.exhale + (if HasHold2(t) then t.hold2.value else 0)) * 1000
  }

  /** The steps visited and the delays waited when the timer fires `n` times from `step`. */
  function Steps(t: Timings, step: int, n: nat): (r: seq<int>)
    ensures |r| == n
    decreases n
  {
    if n == 0 then [] else [step] + Steps(t, Phase(t, step).next, n - 1)
  }

  function Waited(t: Timings, step: int, n: nat): nat
    decreases n
  {
    if n == 0 then 0 else Phase(t, step).delayMs + Waited(t, Phase(t, step).next, n - 1)
  }

  /**
   * From inhaling, the timer walks through the round's phases in order and
   * is back at inhaling after exactly the round's duration.
   */
  lemma RoundReturns(t: Timings)
    ensures Steps(t, 0, |Round(t)|) == Round(t)
    ensures Waited(t, 0, |Round(t)|) == RoundMs(t)
    ensures Phase(t, Round(t)[|Round(t)| - 1]).next == 0
  {
    if HasHold2(t) {
      assert Steps(t, 0, 4) == [0] + ([1] + ([2] + ([3] + Steps(t, 0, 0))));
      assert Waited(t, 0, 4) == t.inhale * 1000 + (t.hold * 1000 + (t.exhale * 1000 + (t.hold2.value * 1000 + 0)));
    } else {
      assert Steps(t, 0, 3) == [0] + ([1] + ([2] + Steps(t, 0, 0)));
      assert Waited(t, 0, 3) == t.inhale * 1000 + (t.hold * 1000 + (t.exhale * 1000 + 0));
    }
  }

  /** Once the cycle runs, preparation never comes back: every step the timer reaches is a phase 0..3. */
  lemma {:induction false} NoPrepareAgain(t: Timings, step: int, n: nat)
    ensures forall k :: 0 < k < n ==> 0 <= Steps(t, step, n)[k] <= 3
    decreases n
  {
    if n > 0 {
      NoPrepareAgain(t, Phase(t, step).next, n - 1);
      var r := Steps(t, step, n);
      var rest := Steps(t, Phase(t, step).next, n - 1);
      assert r == [step] + rest;
      forall k | 0 < k < n ensures 0 <= r[k] <= 3 {
        assert r[k] == rest[k - 1];
        if k == 1 {
          assert rest[0] == Phase(t, step).next;
        }
      }
    }
  }

  /** The pending `setTimeout`: run `runCycle(next)` after `delayMs`. */
  datatype Timer = Timer(next: int, delayMs: nat)

  /** `BreathingExerciseGuide`: the instruction, the circle's style and the armed timer. */
  class BreathingGuide {
    const timings: Timings
    var instruction: string
    var style: Style
    var timer: Option<Timer>

    /** Mounting the guide: the initial state, then the effect runs `runCycle()` from preparation. */
    constructor(e: Exercise)
      requires e.timings.Some?
      ensures timings == e.timings.value
      ensures instruction == PrepareText && style == Style(Shrunk, "2s")
      ensures timer == Some(Timer(0, 2000))
    {
      timings := e.timings.value;
      instruction := PrepareText;
      style := Style(Shrunk, "2s");
      timer := None;
      new;
      RunCycle(-1);
    }

    /** `runCycle(step)`. */
    method RunCycle(step: int)
      modifies this
      ensures var e := Phase(timings, step);
        && instruction == e.instruction
        && style == (if e.style.Some? then e.style.value else old(style))
        && timer == Some(Timer(e.next, e.delayMs))
      decreases if -1 <= step <= 2 then 0 else 1
    {
      if step == -1 {
        instruction := PrepareText;
        style := Style(Shrunk, "2s");
        timer := Some(Timer(0, 2000));
      } else if step == 0 {
        instruction := "Inspire... (" + Seconds(timings.inhale) + ")";
        style := Style(Expanded, Seconds(timings.inhale));
        timer := Some(Timer(1, timings.inhale * 1000));
      } else if step == 1 {
        instruction := "Segure... (" + Seconds(timings.hold) + ")";
        timer := Some(Timer(2, timings.hold * 1000));
      } else if step == 2 {
        instruction := "Expire... (" + Seconds(timings.exhale) + ")";
        style := Style(Shrunk, Seconds(timings.exhale));
        timer := Some(Timer(if HasHold2(timings) then 3 else 0, timings.exhale * 1000));
      } else if step == 3 && HasHold2(timings) {
        instruction := "Segure... (" + Seconds(timings.hold2.value) + ")";
        timer := Some(Timer(0, timings.hold2.value * 1000));
      } else {
        RunCycle(0);
      }
    }

    /** The armed timer fires. */
    method Fire()
      requires timer.Some?
      modifies this
      ensures var e := Phase(timings, old(timer).value.next);
        && instruction == e.instruction
        && style == (if e.style.Some? then e.style.value else old(style))
        && timer == Some(Timer(e.next, e.delayMs))
    {
      RunCycle(timer.value.next);
    }

    /** The effect's cleanup on unmount: `clearTimeout(timer)`. */
    method Stop()
      modifies this
      ensures timer == None && instruction == old(instruction) && style == old(style)
    {
      timer := None;
    }
  }
}
