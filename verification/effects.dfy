/** What one plugin run does, as a value: the request it hands the text
    generator and the edit it makes to the lyric track. */
module Effects {
  import opened Results
  import opened Tracks
  import opened Prompts

  /** `request` is `None` when the run returns before asking the generator. */
  datatype Effect = Effect(request: Option<Request>, edit: Edit)
}
