/** The four-step bot creation wizard (src/components/BotCreationWizard.tsx):
    info, knowledge, connection, complete. */
module BotWizard {
  import opened Common
  import Bots

  datatype Step = Info | Knowledge | Connection | Complete

  /** The position of a step in `["info", "knowledge", "connection", "complete"]`. */
  function StepIndex(step: Step): (r: nat)
    ensures r < 4 && [Info, Knowledge, Connection, Complete][r] == step
  {
    match step
    case Info => 0
    case Knowledge => 1
    case Connection => 2
    case Complete => 3
  }

  /** The step `goToNextStep` moves to: the info step is left only with a
      non-blank name, the connection step leads to complete, and complete
      has no next step. */
  function NextStep(step: Step, botName: string): Step
  {
    match step
    case Info => if Trim(botName) == "" then Info else Knowledge
    case Knowledge => Connection
    case Connection => Complete
    case Complete => Complete
  }

  /** The step `goToPreviousStep` moves to: back from knowledge and
      connection, nowhere from info or complete. */
  function PreviousStep(step: Step): Step
  {
    match step
    case Knowledge => Info
    case Connection => Knowledge
    case _ => step
  }

  /** Moving forward advances the step index by exactly one, except on the
      info step with a blank name and on the complete step, where it stays. */
  lemma NextAdvancesByOne(step: Step, botName: string)
    ensures StepIndex(NextStep(step, botName)) ==
      if step == Complete || (step == Info && IsBlank(botName)) then StepIndex(step) else StepIndex(step) + 1
  {
  }

  /** Once complete, the wizard stays complete in both directions. */
  lemma CompleteIsFinal(botName: string)
    ensures NextStep(Complete, botName) == Complete && PreviousStep(Complete) == Complete
  {
  }

  /** Going back undoes a forward move out of the info and knowledge steps,
      and going forward undoes a backward move out of the knowledge and
      connection steps (for a non-blank name). */
  lemma BackUndoesNext(step: Step, botName: string)
    ensures step == Knowledge || (step == Info && !IsBlank(botName)) ==>
      PreviousStep(NextStep(step, botName)) == step
    ensures (step == Knowledge || step == Connection) && !IsBlank(botName) ==>
      NextStep(PreviousStep(step), botName) == step
  {
  }

  // ---------------------------------------------------------------------------
  // What the page shows

  datatype Badge = Done | Current | Upcoming

  /** The badge of the `index`-th step circle while the wizard is at `step`. */
  function StepBadge(index: nat, step: Step): Badge
  {
    if index == StepIndex(step) then Current
    else if index < StepIndex(step) then Done
    else Upcoming
  }

  /** The indicator marks exactly the steps before the current one as done
      and exactly one step as current. */
  lemma IndicatorShape(step: Step)
    ensures forall i: nat :: i < 4 ==> (StepBadge(i, step) == Done <==> i < StepIndex(step))
    ensures forall i: nat :: i < 4 ==> (StepBadge(i, step) == Current <==> i == StepIndex(step))
  {
  }

  /** After a successful forward move the circle that was current is done,
      and the next one is current. */
  lemma NextMarksStepDone(step: Step, botName: string)
    requires step != Complete && !(step == Info && IsBlank(botName))
    ensures StepBadge(StepIndex(step), NextStep(step, botName)) == Done
    ensures StepBadge(StepIndex(step) + 1, NextStep(step, botName)) == Current
  {
    NextAdvancesByOne(step, botName);
  }

  /** The footer shows "Voltar" on the knowledge and connection steps. */
  function ShowsBack(step: Step): (r: bool)
    ensures r <==> PreviousStep(step) != step
  {
    step != Info && step != Complete
  }

  /** The footer shows the forward button on every step but complete. */
  function ShowsNext(step: Step): (r: bool)
    ensures r <==> exists name: string :: NextStep(step, name) != step
  {
    assert !IsBlank("x") by { assert !IsJsSpace("x"[0]); }
    assert step != Complete ==> NextStep(step, "x") != step;
    step != Complete
  }

  /** The forward button reads "Finalizar" on the connection step, the one
      that creates the bot, and "Próximo" elsewhere. */
  function NextLabel(step: Step): (r: string)
    ensures r == "Finalizar" <==> step == Connection
    ensures step != Connection ==> r == "Próximo"
  {
    if step == Connection then "Finalizar" else "Próximo"
  }

  /** The creation data the connection step hands to `createBot`: name,
      description, personality and knowledge source, nothing else. */
  function CreationData(name: string, description: string, personality: Bots.Personality,
                        source: Bots.KnowledgeSource): Bots.BotCreationData
  {
    Bots.BotCreationData(name, description, Some(personality), Some(source), None, None, None, None, None, None)
  }

  class Wizard {
    var step: Step
    var botName: string
    var botDescription: string
    var personality: Bots.Personality
    var knowledgeSource: Bots.KnowledgeSource
    const store: Bots.BotStore

    /** A fresh wizard on the info step, friendly personality, files as source. */
    constructor (store: Bots.BotStore)
      ensures this.store == store
      ensures step == Info && botName == "" && botDescription == ""
      ensures personality == Bots.Amigavel && knowledgeSource == Bots.Files
    {
      this.store := store;
      step := Info;
      botName := "";
      botDescription := "";
      personality := Bots.Amigavel;
      knowledgeSource := Bots.Files;
    }

    method SetBotName(name: string)
      modifies this
      ensures botName == name
      ensures step == old(step) && botDescription == old(botDescription)
      ensures personality == old(personality) && knowledgeSource == old(knowledgeSource)
    {
      botName := name;
    }

    method SetBotDescription(description: string)
      modifies this
      ensures botDescription == description
      ensures step == old(step) && botName == old(botName)
      ensures personality == old(personality) && knowledgeSource == old(knowledgeSource)
    {
      botDescription := description;
    }

    /** `handlePersonalitySelect`. */
    method SelectPersonality(selected: Bots.Personality)
      modifies this
      ensures personality == selected
      ensures step == old(step) && botName == old(botName) && botDescription == old(botDescription)
      ensures knowledgeSource == old(knowledgeSource)
    {
      personality := selected;
    }

    /** `handleKnowledgeSourceSelect`: the wizard offers files or conversation. */
    method SelectKnowledgeSource(source: Bots.KnowledgeSource)
      requires source != Bots.Websites
      modifies this
      ensures knowledgeSource == source
      ensures step == old(step) && botName == old(botName) && botDescription == old(botDescription)
      ensures personality == old(personality)
    {
      knowledgeSource := source;
    }

    /** `goToNextStep`: the step becomes `NextStep`; leaving the connection
        step creates exactly one bot from the form (at time `now`), and no
        other step touches the store. Creating the bot navigates to the
        dashboard, so the page leaves the wizard; `goTo` is that route, and
        nothing when the page stays. */
    method GoToNextStep(now: int) returns (goTo: Option<string>)
      modifies this, store
      ensures goTo == if old(step) == Connection then Some("/dashboard") else None
      ensures step == NextStep(old(step), old(botName))
      ensures botName == old(botName) && botDescription == old(botDescription)
      ensures personality == old(personality) && knowledgeSource == old(knowledgeSource)
      ensures old(step) == Connection ==>
        store.bots == old(store.bots) + [Bots.NewBot(CreationData(botName, botDescription, personality, knowledgeSource), Bots.BotIdAt(now), now)]
      ensures old(step) != Connection ==> store.bots == old(store.bots)
    {
      goTo := None;
      if step == Info {
        if Trim(botName) == "" {
          return;
        }
        step := Knowledge;
      } else if step == Knowledge {
        step := Connection;
      } else if step == Connection {
        var route := store.CreateBot(CreationData(botName, botDescription, personality, knowledgeSource), now);
        step := Complete;
        goTo := Some(route);
      }
    }

    /** `goToPreviousStep`: the step becomes `PreviousStep`, nothing else changes. */
    method GoToPreviousStep()
      modifies this
      ensures step == PreviousStep(old(step))
      ensures botName == old(botName) && botDescription == old(botDescription)
      ensures personality == old(personality) && knowledgeSource == old(knowledgeSource)
    {
      if step == Knowledge {
        step := Info;
      } else if step == Connection {
        step := Knowledge;
      }
    }
  }

  /** Walking the wizard from the start with a non-blank name creates one
      bot carrying that name, description, personality and source; the
      wizard's state ends complete, but the last step sends the page to the
      dashboard, so the completion screen is never what the user sees. */
  method CreateThroughWizard(store: Bots.BotStore, name: string, description: string,
                             personality: Bots.Personality, now: int)
    returns (w: Wizard, goTo: Option<string>)
    requires !IsBlank(name)
    requires forall k :: 0 <= k < |store.bots| ==> store.bots[k].id != Bots.BotIdAt(now)
    modifies store
    ensures w.step == Complete && w.store == store && goTo == Some("/dashboard")
    ensures store.bots ==
      old(store.bots) + [Bots.NewBot(CreationData(name, description, personality, Bots.Files), Bots.BotIdAt(now), now)]
    ensures store.GetBot(Bots.BotIdAt(now)).Some? && store.GetBot(Bots.BotIdAt(now)).value.name == name
  {
    ghost var before := store.bots;
    ghost var b := Bots.NewBot(CreationData(name, description, personality, Bots.Files), Bots.BotIdAt(now), now);
    w := new Wizard(store);
    w.SetBotName(name);
    w.SetBotDescription(description);
    w.SelectPersonality(personality);
    assert Trim(name) != "";
    goTo := w.GoToNextStep(now);
    assert w.step == Knowledge && store.bots == before;
    goTo := w.GoToNextStep(now);
    assert w.step == Connection && store.bots == before;
    goTo := w.GoToNextStep(now);
    assert store.bots == before + [b];
    Bots.CreatedBotIsFound(before, b);
  }
}
