/** Everything run() learns from the outside world, taken as data: the
    action inputs, the file system, and the scanning service's reply. */
module Environment {
  import opened Wrappers

  /** The fields of the decoded JSON body that run() reads. The numeric
      fields are relayed, never computed on, and are kept as the text the
      template literals render. An absent `error` is None. */
  datatype ScanBody = ScanBody(
    passed: bool,
    grade: string,
    score: string,
    vulnerabilitiesCount: string,
    criticalCount: string,
    highCount: string,
    message: string,
    auditId: string,
    error: Option<string>)

  /** What response.json() yields: a record, or the parse error it throws. */
  datatype Parsed = Json(record: ScanBody) | Malformed(reason: string)

  /** What `await fetch(...)` yields: a rejection, or a response. */
  datatype Reply =
    | Unreachable(reason: string)
    | Answered(status: nat, body: Parsed)

  datatype Env = Env(
    apiKey: string,         // core.getInput('api-key')
    openapiPath: string,    // core.getInput('openapi-path')
    minGrade: string,       // core.getInput('min-grade')
    failOnError: string,    // core.getInput('fail-on-error')
    notSupplied: string -> string, // message getInput throws for an empty required input, by name
    resolvedPath: string,   // path.resolve(process.cwd(), openapiPath)
    fileExists: bool,       // fs.existsSync(resolvedPath)
    readError: Option<string>, // the error fs.readFileSync throws (a directory, no permission), if any
    contents: string,       // fs.readFileSync(resolvedPath, 'utf8') when it succeeds
    lengthText: string,     // the contents' length as the log line renders it
    reply: Reply)           // the service's answer to the scan request
}
