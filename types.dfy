/** The records every scanner produces and consumes. */
module Types {
  import opened Optional
  import opened Strings

  /** One HTTP endpoint found in a source file. `parameters` and `returnType`
      are never filled in by a scanner and are not part of the record here. */
  datatype ApiEndpoint = ApiEndpoint(
    apiPath: string,
    className: string,
    methodName: string,
    filePath: string,
    lineNumber: nat,
    language: string,
    httpMethod: Option<string>)

  /** What a scanner is constructed with. */
  datatype ScannerConfig = ScannerConfig(
    fileExtensions: seq<string>,
    excludePatterns: seq<string>,
    maxFileSizeBytes: Option<int>)

  /** The frameworks the extension knows, plus `unknown`. */
  datatype ProjectType = SpringBoot | Express | Nest | Gin | Echo | FastApi | Unknown {

    /** The string the extension uses for the type. */
    function Name(): string {
      match this
      case SpringBoot => "springBoot"
      case Express => "express"
      case Nest => "nest"
      case Gin => "gin"
      case Echo => "echo"
      case FastApi => "fastapi"
      case Unknown => "unknown"
    }
  }

  /** The verbs an `HttpMethod` may hold. */
  const HttpMethods: set<string> := {"GET", "POST", "PUT", "DELETE", "PATCH"}

  /** The language recorded for a Node.js file: TypeScript exactly for `.ts` paths. */
  function ScriptLanguage(filePath: string): (r: string)
    ensures r == "typescript" <==> EndsWith(filePath, ".ts")
    ensures r == "typescript" || r == "javascript"
  {
    if EndsWith(filePath, ".ts") then "typescript" else "javascript"
  }
}
