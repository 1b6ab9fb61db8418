/** The command-line converter's argument validation (`res2iv`): the input,
    when it is a regular file, must be SVG or XML; the output must be a
    directory. Each failure is reported through `outputError`, which is taken
    to end the process, so checks after it do not run. */
module Converter {

  /** What the file system and the file-name helpers say about one path:
      `isRegularFile()`, `isDirectory()`, `isSvg`, `isXml`. */
  datatype PathFacts = PathFacts(isRegularFile: bool, isDirectory: bool, isSvg: bool, isXml: bool)

  datatype OutputFormat = BackingProperty | LazyProperty

  /** How a run ends: it returns normally, or `outputError` reports a message. */
  datatype Outcome = Completed | Exited(message: string)

  const InputFileMessage := "The input file must be an SVG or XML file."
  const OutputPathMessage := "The output path must be a directory."

  /** The input check: only a regular file is checked for its extension. */
  function CheckInput(input: PathFacts): (r: Outcome)
  {
    if input.isRegularFile && !input.isSvg && !input.isXml then Exited(InputFileMessage) else Completed
  }

  /** The output check. */
  function CheckOutput(output: PathFacts): (r: Outcome)
  {
    if !output.isDirectory then Exited(OutputPathMessage) else Completed
  }

  /** `res2iv`: the input check and then the output check; the first failure
      is the only message. The package name, pack name, preview flag and output
      format are accepted and not used: this version converts nothing. */
  function Res2Iv(
    inputPathString: string,
    outputPathString: string,
    packageName: string,
    iconPackName: string,
    generatePreview: bool,
    outputFormat: OutputFormat,
    facts: string -> PathFacts): (r: Outcome)
    ensures var i := facts(inputPathString);
      r == Exited(InputFileMessage) <==> i.isRegularFile && !i.isSvg && !i.isXml
    ensures var i, o := facts(inputPathString), facts(outputPathString);
      r == Exited(OutputPathMessage) <==> (!i.isRegularFile || i.isSvg || i.isXml) && !o.isDirectory
    ensures var i, o := facts(inputPathString), facts(outputPathString);
      r == Completed <==> (!i.isRegularFile || i.isSvg || i.isXml) && o.isDirectory
    ensures r.Exited? ==> r.message == InputFileMessage || r.message == OutputPathMessage
  {
    match CheckInput(facts(inputPathString))
    case Exited(m) => Exited(m)
    case Completed => CheckOutput(facts(outputPathString))
  }

  /** An input that is not a regular file (a directory, say) is never
      rejected for its extension, whatever its name. */
  lemma NonFileInputPassesExtensionCheck(
    inputPathString: string, outputPathString: string, packageName: string, iconPackName: string,
    generatePreview: bool, outputFormat: OutputFormat, facts: string -> PathFacts)
    requires !facts(inputPathString).isRegularFile
    ensures Res2Iv(inputPathString, outputPathString, packageName, iconPackName,
                   generatePreview, outputFormat, facts) != Exited(InputFileMessage)
  {
  }

  /** The conversion options do not affect the outcome. */
  lemma OutcomeIgnoresOptions(
    inputPathString: string, outputPathString: string, facts: string -> PathFacts,
    packageName1: string, iconPackName1: string, generatePreview1: bool, outputFormat1: OutputFormat,
    packageName2: string, iconPackName2: string, generatePreview2: bool, outputFormat2: OutputFormat)
    ensures Res2Iv(inputPathString, outputPathString, packageName1, iconPackName1, generatePreview1, outputFormat1, facts)
         == Res2Iv(inputPathString, outputPathString, packageName2, iconPackName2, generatePreview2, outputFormat2, facts)
  {
  }
}
