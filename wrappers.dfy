/** Option and Result, plus the error kinds the tool reports. */
module Wrappers {

  datatype Option<+T> = None | Some(value: T)

  /** Every failure the modelled code can report. */
  datatype Error =
    | NotFound(path: string)                 // a file or directory that does not exist
    | NotADirectory(path: string)            // a path expected to be a directory is a regular file
    | IsADirectory(path: string)             // a path expected to be a regular file is a directory
    | IOFailure(path: string)                // an I/O failure the model does not predict
    | AgentMissing                           // ".agent not found. Run ctx init <template> first"
    | AlreadyInitialized                     // ".agent already exists, refusing to overwrite"
    | MissingFrontMatter                     // "work item missing front matter"
    | InvalidWorkItemFormat                  // "invalid work item format"
    | YamlError(message: string)             // a document the YAML decoder rejects
    | ProfileNotFound(name: string)          // "prompt profile %q not found"
    | NoActiveWorkItem                       // "no active work item ..."
    | TemplateNotFound(name: string)         // "built-in template %q not found"
    | TemplateExists(name: string)           // "template %q already exists at ..."
    | DefaultTemplateMissing                 // "default template not available"
    | EmptyText                              // "work item text cannot be empty"
    | CouldNotLoad(id: string, cause: Error)        // "could not load %s: %w"
    | SourceNotFound(path: string, cause: Error)    // "source evidence %q not found: %w"

  datatype Result<+T> = Ok(value: T) | Err(error: Error) {
    predicate IsFailure() {
      Err?
    }

    function PropagateFailure<U>(): Result<U>
      requires Err?
    {
      Err(error)
    }

    function Extract(): T
      requires Ok?
    {
      value
    }
  }
}
