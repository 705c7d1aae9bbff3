/** The configuration record of ~/.aicommit/config.json and what loadConfig
    does with it once it is decoded: reject a missing API key, fill in
    defaults, and later let `--lang=` replace the default language. */
module Configuration {
  import opened Wrappers

  /** Config (main.go). `proxyURL` is decoded but nothing reads it;
      `temperature` is Go's float64, kept here as a real. */
  datatype Config = Config(
    openAIEndpoint: string,
    apiKey: string,
    defaultLang: string,
    proxyURL: string,
    model: string,
    maxTokens: int,
    temperature: real)

  const DefaultEndpoint := "https://api.openai.com/v1/chat/completions"
  const DefaultLang := "en"
  const DefaultModel := "gpt-4o"
  const DefaultMaxTokens := 500
  const DefaultTemperature := 0.7

  /** The zero value of Config: the global before any file is decoded into it. */
  function ZeroConfig(): Config {
    Config("", "", "", "", "", 0, 0.0)
  }

  /** The document createDefaultConfig writes on first run: every default
      filled in, and no API key. */
  function FirstRunConfig(): (r: Config)
    ensures Complete(r) && r.apiKey == "" && r.proxyURL == ""
    ensures r == WithDefaults(ZeroConfig())
  {
    Config(DefaultEndpoint, "", DefaultLang, "", DefaultModel, DefaultMaxTokens, DefaultTemperature)
  }

  /** Every field that has a fallback holds a usable value. */
  predicate Complete(c: Config) {
    c.openAIEndpoint != "" && c.defaultLang != "" && c.model != "" && c.maxTokens > 0 && c.temperature > 0.0
  }

  /** The fallback step of loadConfig: an empty string field or a
      non-positive number is replaced by its default. Afterwards every such
      field is usable, fields that were already usable are unchanged, and the
      API key and proxy are left as they were. */
  function WithDefaults(c: Config): (r: Config)
    ensures Complete(r)
    ensures r.apiKey == c.apiKey && r.proxyURL == c.proxyURL
    ensures c.openAIEndpoint != "" ==> r.openAIEndpoint == c.openAIEndpoint
    ensures c.defaultLang != "" ==> r.defaultLang == c.defaultLang
    ensures c.model != "" ==> r.model == c.model
    ensures c.maxTokens > 0 ==> r.maxTokens == c.maxTokens
    ensures c.temperature > 0.0 ==> r.temperature == c.temperature
  {
    c.(openAIEndpoint := if c.openAIEndpoint == "" then DefaultEndpoint else c.openAIEndpoint,
       defaultLang := if c.defaultLang == "" then DefaultLang else c.defaultLang,
       model := if c.model == "" then DefaultModel else c.model,
       maxTokens := if c.maxTokens <= 0 then DefaultMaxTokens else c.maxTokens,
       temperature := if c.temperature <= 0.0 then DefaultTemperature else c.temperature)
  }

  /** A field that had no usable value gets the documented default. */
  lemma DefaultsAreDocumented(c: Config)
    ensures c.openAIEndpoint == "" ==> WithDefaults(c).openAIEndpoint == DefaultEndpoint
    ensures c.defaultLang == "" ==> WithDefaults(c).defaultLang == "en"
    ensures c.model == "" ==> WithDefaults(c).model == "gpt-4o"
    ensures c.maxTokens <= 0 ==> WithDefaults(c).maxTokens == 500
    ensures c.temperature <= 0.0 ==> WithDefaults(c).temperature == 0.7
  {
  }

  /** Defaulting a complete record changes nothing, so defaulting twice is
      the same as defaulting once. */
  lemma WithDefaultsIdempotent(c: Config)
    ensures Complete(c) ==> WithDefaults(c) == c
    ensures WithDefaults(WithDefaults(c)) == WithDefaults(c)
  {
  }

  /** A document that sets only the API key loads as the first-run template
      with that key: the template and the fallbacks agree. */
  lemma KeyOnlyDocumentGetsTemplate(key: string)
    ensures WithDefaults(ZeroConfig().(apiKey := key)) == FirstRunConfig().(apiKey := key)
  {
  }

  /** What the file system gives loadConfig, with JSON decoding already done. */
  datatype ConfigFile =
    | NoHomeDir(reason: string)            // os.UserHomeDir failed
    | Absent(createError: Option<string>)  // no file; writing the template failed with `createError`, if set
    | Unreadable(reason: string)           // os.ReadFile failed
    | Malformed(reason: string)            // json.Unmarshal failed
    | Present(doc: Config)                 // the decoded document

  /** How loadConfig ends. `FirstRun` and `MissingApiKey` are the two places
      where it calls os.Exit itself (status 0 and 1); `Failed` is an error
      returned to main. */
  datatype LoadResult = Ready(config: Config) | FirstRun | Failed(reason: string) | MissingApiKey

  /** loadConfig on an already decoded file. It yields a configuration
      exactly when the document has an API key, and that configuration is
      complete and has the key; an empty key never yields one; a missing
      file is the first-run exit once the template could be written. */
  function Load(file: ConfigFile): (r: LoadResult)
    ensures r.Ready? <==> file.Present? && file.doc.apiKey != ""
    ensures r.Ready? ==> r.config == WithDefaults(file.doc) && Complete(r.config) && r.config.apiKey != ""
    ensures r == MissingApiKey <==> file.Present? && file.doc.apiKey == ""
    ensures r == FirstRun <==> file.Absent? && file.createError.None?
  {
    match file
    case NoHomeDir(reason) => Failed(reason)
    case Absent(createError) =>
      if createError.Some? then Failed(createError.value) else FirstRun
    case Unreadable(reason) => Failed(reason)
    case Malformed(reason) => Failed(reason)
    case Present(doc) =>
      if doc.apiKey == "" then MissingApiKey else Ready(WithDefaults(doc))
  }

  /** The `--lang=` override in main: a non-empty value replaces the default
      language and touches nothing else; an empty value leaves the record
      alone. Either way a complete record stays complete. */
  function WithLang(c: Config, lang: string): (r: Config)
    ensures lang != "" ==> r.defaultLang == lang
    ensures lang == "" ==> r == c
    ensures r.(defaultLang := c.defaultLang) == c
    ensures Complete(c) ==> Complete(r)
  {
    if lang != "" then c.(defaultLang := lang) else c
  }
}
