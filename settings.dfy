/** The plugin's settings store: the persisted record of nullable strings
    (`PersistentSettings.ValkyrieState`), the immutable snapshot derived from
    it (`ValkyriesSettings`), and `InMemorySettings`, which writes one
    persisted field per update and then re-derives the snapshot. */
module Settings {
  import opened KotlinText

  /** The plugin's working mode; a closed enumeration. */
  datatype Mode = Simple | IconPack | Unspecified

  /** `mode.name`. */
  function ModeName(m: Mode): string
  {
    match m
    case Simple => "Simple"
    case IconPack => "IconPack"
    case Unspecified => "Unspecified"
  }

  /** `Mode.valueOf(name)`; `None` where Kotlin throws
      IllegalArgumentException. It succeeds exactly on the names of modes. */
  function ModeValueOf(name: string): (r: Option<Mode>)
    ensures forall m: Mode :: r == Some(m) <==> ModeName(m) == name
  {
    if name == "Simple" then Some(Simple)
    else if name == "IconPack" then Some(IconPack)
    else if name == "Unspecified" then Some(Unspecified)
    else None
  }

  const DefaultPackageName := "io.github.composegears.valkyrie"
  const DefaultIconPackName := "ValkyrieIcons"
  const NestedPackSeparator := ','

  /** The persisted record; each string field is nullable. */
  datatype ValkyrieState = ValkyrieState(
    mode: Option<string>,
    packageName: Option<string>,
    iconPackName: Option<string>,
    iconPackDestination: Option<string>,
    nestedPacks: Option<string>,
    currentNestedPack: Option<string>,
    generatePreview: bool,
    initialDirectory: Option<string>)

  /** A freshly created persisted record: mode "Unspecified", no preview,
      every other string null. */
  function DefaultValkyrieState(): ValkyrieState
  {
    ValkyrieState(Some(ModeName(Unspecified)), None, None, None, None, None, false, None)
  }

  /** The snapshot handed to the rest of the plugin. */
  datatype ValkyriesSettings = ValkyriesSettings(
    mode: Mode,
    packageName: string,
    iconPackName: string,
    iconPackDestination: string,
    nestedPacks: seq<string>,
    currentNestedPack: string,
    generatePreview: bool,
    initialDirectory: string)

  /** The `or(default)` extension on a nullable string. Its definition is not
      part of this model; it is taken to use the default when the stored
      string is null or empty. */
  function Or(s: Option<string>, default: string): (r: string)
    ensures s.Some? && s.value != "" ==> r == s.value
    ensures s.None? || s.value == "" ==> r == default
    ensures default != "" ==> r != ""
  {
    if s.None? || s.value == "" then default else s.value
  }

  /** The stored nested-pack list: split at commas, empty pieces dropped. */
  function DecodeNestedPacks(s: Option<string>): (r: seq<string>)
    ensures forall i :: 0 <= i < |r| ==> r[i] != "" && NestedPackSeparator !in r[i]
  {
    NonEmpty(Split(OrEmpty(s), NestedPackSeparator))
  }

  /** The stored mode string names a `Mode`. */
  predicate ModeValid(r: ValkyrieState)
  {
    r.mode.Some? && ModeValueOf(r.mode.value).Some?
  }

  /** The exceptions the snapshot's `Mode.valueOf(mode!!)` can throw. */
  datatype SnapshotError = NullMode | UnknownMode(name: string)

  /** `toValkyriesSettings`: the snapshot of a persisted record, with defaults
      filled in; `home` is the `user.home` system property. */
  function ToValkyriesSettings(r: ValkyrieState, home: string): (res: Result<ValkyriesSettings, SnapshotError>)
    ensures res.Ok? <==> ModeValid(r)
    ensures r.mode.None? ==> res == Failure(NullMode)
    ensures res.Ok? ==> ModeName(res.value.mode) == r.mode.value
    ensures res.Ok? ==> res.value.packageName != "" && res.value.iconPackName != ""
    ensures res.Ok? ==> forall i :: 0 <= i < |res.value.nestedPacks| ==> res.value.nestedPacks[i] != ""
  {
    if r.mode.None? then Failure(NullMode)
    else match ModeValueOf(r.mode.value)
      case None => Failure(UnknownMode(r.mode.value))
      case Some(m) =>
        Ok(ValkyriesSettings(
          m,
          Or(r.packageName, DefaultPackageName),
          Or(r.iconPackName, DefaultIconPackName),
          Or(r.iconPackDestination, ""),
          DecodeNestedPacks(r.nestedPacks),
          OrEmpty(r.currentNestedPack),
          r.generatePreview,
          if r.initialDirectory.None? then home else r.initialDirectory.value))
  }

  /** The record `clear()` leaves behind. */
  function ClearedValkyrieState(): ValkyrieState
  {
    ValkyrieState(Some(ModeName(Unspecified)), Some(""), Some(""), Some(""), Some(""), Some(""), false, Some(""))
  }

  /** After `clear()` the snapshot holds the defaults; the initial directory
      is "" rather than the home directory, since only null falls back. */
  lemma ClearedSnapshot(home: string)
    ensures ToValkyriesSettings(ClearedValkyrieState(), home)
         == Ok(ValkyriesSettings(Unspecified, DefaultPackageName, DefaultIconPackName, "", [], "", false, ""))
  {
  }

  /** The snapshot of a record never written to: defaults everywhere, and
      the initial directory is the home directory. */
  lemma DefaultSnapshot(home: string)
    ensures ToValkyriesSettings(DefaultValkyrieState(), home)
         == Ok(ValkyriesSettings(Unspecified, DefaultPackageName, DefaultIconPackName, "", [], "", false, home))
  {
  }

  /** Encoding a non-empty list of nested-pack names and decoding it again
      gives the list back when every name is non-empty and comma-free. */
  lemma NestedPacksRoundTrip(xs: seq<string>)
    requires xs != []
    requires forall i :: 0 <= i < |xs| ==> xs[i] != "" && NestedPackSeparator !in xs[i]
    ensures DecodeNestedPacks(Some(Join(xs, NestedPackSeparator))) == xs
  {
    SplitJoin(xs, NestedPackSeparator);
    NonEmptyKeepsAll(xs);
  }

  /** The in-memory settings store. `persisted` is the record it writes;
      `current` is the snapshot it exposes. */
  class InMemorySettings {
    /** The `user.home` system property. */
    const home: string
    var persisted: ValkyrieState
    var current: ValkyriesSettings

    /** The stored mode is a `Mode` name, and the snapshot is the one derived
        from the persisted record (it is never stale). */
    ghost predicate Valid()
      reads this
    {
      ModeValid(persisted) && ToValkyriesSettings(persisted, home) == Ok(current)
    }

    /** The store starts from the record loaded by the persistence layer. */
    constructor (loaded: ValkyrieState, home: string)
      requires ModeValid(loaded)
      ensures Valid()
      ensures this.home == home && persisted == loaded
    {
      this.home := home;
      persisted := loaded;
      current := ToValkyriesSettings(loaded, home).value;
    }

    /** `updateSettings`: re-derive the snapshot after a write. */
    method UpdateSettings()
      requires ModeValid(persisted)
      modifies this`current
      ensures Valid()
    {
      current := ToValkyriesSettings(persisted, home).value;
    }

    method UpdateGeneratePreview(generatePreview: bool)
      requires Valid()
      modifies this
      ensures Valid()
      ensures persisted == old(persisted).(generatePreview := generatePreview)
      ensures current == old(current).(generatePreview := generatePreview)
    {
      persisted := persisted.(generatePreview := generatePreview);
      UpdateSettings();
    }

    method UpdateInitialDirectory(initialDirectory: string)
      requires Valid()
      modifies this
      ensures Valid()
      ensures persisted == old(persisted).(initialDirectory := Some(initialDirectory))
      ensures current == old(current).(initialDirectory := initialDirectory)
    {
      persisted := persisted.(initialDirectory := Some(initialDirectory));
      UpdateSettings();
    }

    method UpdateIconPackName(iconPackName: string)
      requires Valid()
      modifies this
      ensures Valid()
      ensures persisted == old(persisted).(iconPackName := Some(iconPackName))
      ensures current == old(current).(iconPackName := if iconPackName == "" then DefaultIconPackName else iconPackName)
    {
      persisted := persisted.(iconPackName := Some(iconPackName));
      UpdateSettings();
    }

    method UpdateIconPackDestination(iconPackDestination: string)
      requires Valid()
      modifies this
      ensures Valid()
      ensures persisted == old(persisted).(iconPackDestination := Some(iconPackDestination))
      ensures current == old(current).(iconPackDestination := iconPackDestination)
    {
      persisted := persisted.(iconPackDestination := Some(iconPackDestination));
      UpdateSettings();
    }

    /** Stores the names comma-joined and makes the first one current. */
    method UpdateNestedPack(nestedPacks: seq<string>)
      requires Valid()
      modifies this
      ensures Valid()
      ensures nestedPacks == [] ==>
        persisted == old(persisted).(nestedPacks := Some(""), currentNestedPack := Some(""))
      ensures nestedPacks != [] ==>
        persisted == old(persisted).(nestedPacks := Some(Join(nestedPacks, NestedPackSeparator)),
                                     currentNestedPack := Some(nestedPacks[0]))
      ensures current == old(current).(nestedPacks := current.nestedPacks,
                                       currentNestedPack := current.currentNestedPack)
      ensures current.currentNestedPack == if nestedPacks == [] then "" else nestedPacks[0]
      ensures (forall i :: 0 <= i < |nestedPacks| ==> NestedPackSeparator !in nestedPacks[i]) ==>
        current.nestedPacks == NonEmpty(nestedPacks)
    {
      if nestedPacks == [] {
        persisted := persisted.(nestedPacks := Some(""), currentNestedPack := Some(""));
      } else {
        persisted := persisted.(nestedPacks := Some(Join(nestedPacks, NestedPackSeparator)),
                                currentNestedPack := Some(nestedPacks[0]));
      }
      UpdateSettings();
      if forall i :: 0 <= i < |nestedPacks| ==> NestedPackSeparator !in nestedPacks[i] {
        JoinThenDecode(nestedPacks, NestedPackSeparator);
      }
    }

    method UpdateCurrentNestedPack(currentNestedPack: string)
      requires Valid()
      modifies this
      ensures Valid()
      ensures persisted == old(persisted).(currentNestedPack := Some(currentNestedPack))
      ensures current == old(current).(currentNestedPack := currentNestedPack)
    {
      persisted := persisted.(currentNestedPack := Some(currentNestedPack));
      UpdateSettings();
    }

    method UpdatePackageName(packageName: string)
      requires Valid()
      modifies this
      ensures Valid()
      ensures persisted == old(persisted).(packageName := Some(packageName))
      ensures current == old(current).(packageName := if packageName == "" then DefaultPackageName else packageName)
    {
      persisted := persisted.(packageName := Some(packageName));
      UpdateSettings();
    }

    method UpdateMode(mode: Mode)
      requires Valid()
      modifies this
      ensures Valid()
      ensures persisted == old(persisted).(mode := Some(ModeName(mode)))
      ensures current == old(current).(mode := mode)
    {
      persisted := persisted.(mode := Some(ModeName(mode)));
      UpdateSettings();
    }

    /** Resets every persisted field. */
    method Clear()
      requires Valid()
      modifies this
      ensures Valid()
      ensures persisted == ClearedValkyrieState()
      ensures current == ValkyriesSettings(Unspecified, DefaultPackageName, DefaultIconPackName, "", [], "", false, "")
    {
      persisted := persisted.(mode := Some(ModeName(Unspecified)));
      persisted := persisted.(packageName := Some(""), iconPackName := Some(""), iconPackDestination := Some(""));
      persisted := persisted.(nestedPacks := Some(""), currentNestedPack := Some(""));
      persisted := persisted.(generatePreview := false);
      persisted := persisted.(initialDirectory := Some(""));
      UpdateSettings();
      ClearedSnapshot(home);
    }
  }
}
