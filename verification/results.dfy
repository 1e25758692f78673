/** Failure-carrying datatypes shared by every plugin run. The Python plugins
    raise exceptions; here each exception becomes an `Err` value. */
module Results {

  datatype Option<+T> = None | Some(value: T)

  /** The exceptions the plugin runs raise, one constructor per cause. */
  datatype Error =
    | TrackNotFound                  // the host has no track with the requested id
    | TriggerNotSupported            // the run was triggered by something other than a lyrics or MIDI track
    | NoLyricsGenerated              // the model's reply held no usable lyric line
    | IndexOutOfRange                // a list index outside an empty or too short list
    | ZeroDivision                   // a division by a zero line count
    | LanguageNotSupported(lang: string)  // the prompt constructor refuses the language

  datatype Result<+T> = Ok(value: T) | Err(error: Error) {

    predicate IsFailure() {
      Err?
    }

    function PropagateFailure<U>(): Result<U>
      requires Err?
    {
      Err(error)
    }

    function Extract(): T
      requires Ok?
    {
      value
    }
  }
}
