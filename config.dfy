/**
 * The process-wide configuration and the exceptions the adapter can raise.
 *
 * The configuration file is loaded elsewhere into an attribute namespace;
 * here it is an abstract read-only record in which an absent attribute
 * is `None`, so that reading it is the source's `AttributeError`.
 */
module Config {
  import opened Wrappers

  /** The keyword arguments of one configured starter suggestion. */
  type StarterEntry = map<string, string>

  datatype Settings = Settings(
    adapter: Option<string>,                  // ADAPTER
    systemPrompt: Option<string>,             // SYSTEM_PROMPT
    streamResponse: Option<bool>,             // STREAM_RESPONSE
    starters: Option<seq<StarterEntry>>       // STARTERS
  )

  /** The exceptions that leave the adapter's hooks. */
  datatype Error =
    | MissingSetting(key: string)          // AttributeError on `settings`
    | MissingAttribute(attribute: string)  // AttributeError on the `None` chain
    | NotEnoughValues                      // ValueError when unpacking a split
    | BackendFailure(reason: string)       // whatever the model backend raised
}
