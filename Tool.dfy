/** What the two weather tools share: the upstream API and the shape of an answer. */
module Tool {

  /** Base URL of the National Weather Service API every request goes to. */
  const NwsApiBase := "https://api.weather.gov"

  /** A tool's answer, `{content: [{type: "text", text}]}`, together with the
      upstream URLs the handler asked for, in the order it asked for them. */
  datatype Reply = Reply(text: string, requested: seq<string>)
}
