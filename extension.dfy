/** `getFilePattern` of the extension's activation: the glob its file watcher
    uses for a project type. */
module Extension {
  import opened Types

  const JavaFiles: string := "**/*.java"
  const ScriptFiles: string := "**/*.{js,ts}"
  const GoFiles: string := "**/*.go"
  const AnyFiles: string := "**/*.{java,ts,js,go}"

  function GetFilePattern(projectType: string): string {
    match projectType
    case "springBoot" => JavaFiles
    case "express" => ScriptFiles
    case "nest" => ScriptFiles
    case "gin" => GoFiles
    case "echo" => GoFiles
    case _ => AnyFiles
  }

  /** The pattern of each project type the extension names: Java for Spring
      Boot, scripts for Express and Nest, Go for Gin and Echo, and the
      catch-all for every other, FastAPI included, whose `.py` files it
      does not match. */
  lemma PatternOfType(p: ProjectType)
    ensures GetFilePattern(p.Name()) ==
      match p
      case SpringBoot => JavaFiles
      case Express => ScriptFiles
      case Nest => ScriptFiles
      case Gin => GoFiles
      case Echo => GoFiles
      case _ => AnyFiles
  {
  }

  /** Any string other than the five names gets the catch-all pattern. */
  lemma OtherNamesCatchAll(projectType: string)
    requires projectType !in {"springBoot", "express", "nest", "gin", "echo"}
    ensures GetFilePattern(projectType) == AnyFiles
  {
  }
}
