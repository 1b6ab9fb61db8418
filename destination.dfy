/** The icon-pack destination screen's view-model: a three-field state that
    starts from the saved destination, is replaced when a directory is picked,
    and is pushed back into the settings store on save. */
module Destination {
  import opened KotlinText
  import opened Settings

  datatype IconPackDestinationState = IconPackDestinationState(
    nextButtonEnabled: bool,
    iconPackDestination: string,
    predictedPackage: string)

  /** The state built from the constructor's default arguments. */
  const DefaultDestinationState := IconPackDestinationState(false, "", "")

  /** A file-system path, seen through the two string forms the view-model
      uses: `absolutePathString()` and `invariantSeparatorsPathString`. */
  datatype Path = Path(absolutePathString: string, invariantSeparatorsPathString: string)

  /** `PackageExtractor.getFrom(path)`: the package predicted for a directory, if any. */
  type Extractor = string -> Option<string>

  /** The state the view-model opens with, from the saved destination. */
  function InitialDestinationState(saved: string, getFrom: Extractor): (st: IconPackDestinationState)
    ensures st.nextButtonEnabled <==> saved != ""
    ensures st.iconPackDestination == saved
    ensures getFrom(saved).None? ==> st.predictedPackage == ""
    ensures getFrom(saved).Some? ==> st.predictedPackage == getFrom(saved).value
  {
    IconPackDestinationState(saved != "", saved, OrEmpty(getFrom(saved)))
  }

  /** Opening with no saved destination, where nothing is predicted for "",
      gives the default state. */
  lemma OpenEmptyIsDefault(getFrom: Extractor)
    requires getFrom("").None?
    ensures InitialDestinationState("", getFrom) == DefaultDestinationState
  {
  }

  /** The calls a view-model receives after it is created. */
  datatype Event = UpdateDestination(path: Path) | SaveSettings

  /** One call's effect on the view-model's own state. */
  function Step(st: IconPackDestinationState, e: Event, getFrom: Extractor): IconPackDestinationState
  {
    match e
    case UpdateDestination(p) =>
      st.(iconPackDestination := p.absolutePathString,
          nextButtonEnabled := true,
          predictedPackage := OrEmpty(getFrom(p.invariantSeparatorsPathString)))
    case SaveSettings => st
  }

  /** The state after a sequence of calls. */
  function Run(st: IconPackDestinationState, es: seq<Event>, getFrom: Extractor): IconPackDestinationState
    decreases |es|
  {
    if es == [] then st else Run(Step(st, es[0], getFrom), es[1..], getFrom)
  }

  /** The most recently picked path in a sequence of calls, if any. */
  function LastPicked(es: seq<Event>): Option<Path>
    decreases |es|
  {
    if es == [] then None
    else match LastPicked(es[1..])
      case Some(p) => Some(p)
      case None => if es[0].UpdateDestination? then Some(es[0].path) else None
  }

  /** Whatever the calls, the state is determined by the last picked path:
      the destination is its absolute form, the prediction is the extractor's
      answer for it or "", and the next button is enabled; with no pick the
      state is the initial one. */
  lemma {:induction false} RunFollowsLastPick(st: IconPackDestinationState, es: seq<Event>, getFrom: Extractor)
    ensures LastPicked(es).None? ==> Run(st, es, getFrom) == st
    ensures LastPicked(es).Some? ==>
      Run(st, es, getFrom) == IconPackDestinationState(
        true,
        LastPicked(es).value.absolutePathString,
        OrEmpty(getFrom(LastPicked(es).value.invariantSeparatorsPathString)))
    decreases |es|
  {
    if es != [] {
      RunFollowsLastPick(Step(st, es[0], getFrom), es[1..], getFrom);
    }
  }

  /** The next button, once enabled, stays enabled; and it is enabled after
      a run exactly when it was before or some path was picked. */
  lemma NextButtonStaysEnabled(st: IconPackDestinationState, es: seq<Event>, getFrom: Extractor)
    ensures Run(st, es, getFrom).nextButtonEnabled <==> st.nextButtonEnabled || LastPicked(es).Some?
  {
    RunFollowsLastPick(st, es, getFrom);
  }

  /** Saving a destination and opening the screen again restores that
      destination, with the next button enabled exactly when it is non-empty. */
  lemma SaveThenReopen(r: ValkyrieState, home: string, st: IconPackDestinationState, getFrom: Extractor)
    requires ModeValid(r)
    ensures var saved := ToValkyriesSettings(r.(iconPackDestination := Some(st.iconPackDestination)), home);
      saved.Ok? &&
      InitialDestinationState(saved.value.iconPackDestination, getFrom).iconPackDestination == st.iconPackDestination &&
      (InitialDestinationState(saved.value.iconPackDestination, getFrom).nextButtonEnabled <==> st.iconPackDestination != "")
  {
  }

  class IconPackDestinationViewModel {
    const inMemorySettings: InMemorySettings
    const getFrom: Extractor
    var state: IconPackDestinationState

    /** Starts from the destination in the store's current snapshot. */
    constructor (inMemorySettings: InMemorySettings, getFrom: Extractor)
      ensures this.inMemorySettings == inMemorySettings && this.getFrom == getFrom
      ensures state == InitialDestinationState(inMemorySettings.current.iconPackDestination, getFrom)
    {
      this.inMemorySettings := inMemorySettings;
      this.getFrom := getFrom;
      state := InitialDestinationState(inMemorySettings.current.iconPackDestination, getFrom);
    }

    /** Records a picked directory. */
    method UpdateDestination(path: Path)
      modifies this
      ensures state == Step(old(state), Event.UpdateDestination(path), getFrom)
      ensures state == IconPackDestinationState(
        true, path.absolutePathString, OrEmpty(getFrom(path.invariantSeparatorsPathString)))
    {
      state := state.(iconPackDestination := path.absolutePathString,
                      nextButtonEnabled := true,
                      predictedPackage := OrEmpty(getFrom(path.invariantSeparatorsPathString)));
    }

    /** Writes the chosen destination into the settings store; afterwards the
        store's snapshot agrees with this view-model, which is itself unchanged. */
    method SaveSettings()
      requires inMemorySettings.Valid()
      modifies inMemorySettings
      ensures inMemorySettings.Valid()
      ensures state == old(state) && state == Step(old(state), Event.SaveSettings, getFrom)
      ensures inMemorySettings.persisted
           == old(inMemorySettings.persisted).(iconPackDestination := Some(state.iconPackDestination))
      ensures inMemorySettings.current
           == old(inMemorySettings.current).(iconPackDestination := state.iconPackDestination)
      ensures inMemorySettings.current.iconPackDestination == state.iconPackDestination
    {
      inMemorySettings.UpdateIconPackDestination(state.iconPackDestination);
    }
  }
}
