/** The service configuration (config.py): values read once from the process
    environment, the embedding model and dimension chosen by provider, and the start-up
    validation of the credentials the chosen provider needs. */
module Config {
  import opened Wrappers
  import opened Strs

  /** `os.getenv(key, default)`. */
  function Getenv(env: map<string, string>, key: string, default: string): (r: string)
    ensures key in env ==> r == env[key]
    ensures key !in env ==> r == default
  {
    if key in env then env[key] else default
  }

  /** `os.getenv(key)` with no default. */
  function Lookup(env: map<string, string>, key: string): (r: Option<string>)
    ensures r.Some? <==> key in env
    ensures r.Some? ==> r.value == env[key]
  {
    if key in env then Some(env[key]) else None
  }

  datatype Settings = Settings(
    neo4jUri: string,
    neo4jUser: string,
    neo4jPassword: string,
    provider: string,
    openaiApiKey: Option<string>,
    openaiEmbeddingModel: string,
    openaiChatModel: string,
    geminiApiKey: Option<string>,
    geminiEmbeddingModel: string,
    geminiChatModel: string,
    embeddingModel: Option<string>,
    embeddingDimension: int,
    similarityThreshold: real,
    apiHost: string,
    apiPort: int,
    corsOrigins: string)

  const DefaultCorsOrigins: string :=
    "http://localhost:3000,http://127.0.0.1:3000,https://fancy-begonia-749ca6.netlify.app"

  /** The class-level attributes of `Config`, read when the module is imported. The
      numeric conversions `int(...)` and `float(...)` are parameters; a value they reject
      makes the import fail, in the order the attributes are declared. */
  function Load(env: map<string, string>, toInt: string -> Result<int>, toReal: string -> Result<real>): (r: Result<Settings>)
    ensures r.Ok? ==> r.value.neo4jUri == Getenv(env, "NEO4J_URI", "bolt://localhost:7687")
    ensures r.Ok? ==> r.value.neo4jUser == Getenv(env, "NEO4J_USER", "neo4j")
    ensures r.Ok? ==> r.value.neo4jPassword == Getenv(env, "NEO4J_PASSWORD", "")
    ensures r.Ok? ==> r.value.provider == Lower(Getenv(env, "PROVIDER", "openai"))
    ensures r.Ok? ==> r.value.openaiApiKey == Lookup(env, "OPENAI_API_KEY")
    ensures r.Ok? ==> r.value.openaiEmbeddingModel == Getenv(env, "OPENAI_EMBEDDING_MODEL", "text-embedding-3-small")
    ensures r.Ok? ==> r.value.openaiChatModel == Getenv(env, "OPENAI_CHAT_MODEL", "gpt-4-turbo-preview")
    ensures r.Ok? ==> r.value.geminiApiKey == Lookup(env, "GEMINI_API_KEY")
    ensures r.Ok? ==> r.value.geminiEmbeddingModel == Getenv(env, "GEMINI_EMBEDDING_MODEL", "gemini-embedding-001")
    ensures r.Ok? ==> r.value.geminiChatModel == Getenv(env, "GEMINI_CHAT_MODEL", "gemini-2.5-flash")
    ensures r.Ok? ==> r.value.embeddingModel == Lookup(env, "EMBEDDING_MODEL")
    ensures r.Ok? ==> toInt(Getenv(env, "EMBEDDING_DIMENSION", "1536")) == Ok(r.value.embeddingDimension)
    ensures r.Ok? ==> toReal(Getenv(env, "SIMILARITY_THRESHOLD", "0.85")) == Ok(r.value.similarityThreshold)
    ensures r.Ok? ==> r.value.apiHost == Getenv(env, "API_HOST", "0.0.0.0")
    ensures r.Ok? ==> toInt(Getenv(env, "API_PORT", "8000")) == Ok(r.value.apiPort)
    ensures r.Ok? ==> r.value.corsOrigins == Getenv(env, "CORS_ORIGINS", DefaultCorsOrigins)
    ensures r.Err? <==>
      toInt(Getenv(env, "EMBEDDING_DIMENSION", "1536")).Err?
      || toReal(Getenv(env, "SIMILARITY_THRESHOLD", "0.85")).Err?
      || toInt(Getenv(env, "API_PORT", "8000")).Err?
  {
    var dimension :- toInt(Getenv(env, "EMBEDDING_DIMENSION", "1536"));
    var threshold :- toReal(Getenv(env, "SIMILARITY_THRESHOLD", "0.85"));
    var port :- toInt(Getenv(env, "API_PORT", "8000"));
    Ok(Settings(
      Getenv(env, "NEO4J_URI", "bolt://localhost:7687"),
      Getenv(env, "NEO4J_USER", "neo4j"),
      Getenv(env, "NEO4J_PASSWORD", ""),
      Lower(Getenv(env, "PROVIDER", "openai")),
      Lookup(env, "OPENAI_API_KEY"),
      Getenv(env, "OPENAI_EMBEDDING_MODEL", "text-embedding-3-small"),
      Getenv(env, "OPENAI_CHAT_MODEL", "gpt-4-turbo-preview"),
      Lookup(env, "GEMINI_API_KEY"),
      Getenv(env, "GEMINI_EMBEDDING_MODEL", "gemini-embedding-001"),
      Getenv(env, "GEMINI_CHAT_MODEL", "gemini-2.5-flash"),
      Lookup(env, "EMBEDDING_MODEL"),
      dimension,
      threshold,
      Getenv(env, "API_HOST", "0.0.0.0"),
      port,
      Getenv(env, "CORS_ORIGINS", DefaultCorsOrigins)))
  }

  /** The provider is compared lower-cased: "Gemini" and "GEMINI" select Gemini. */
  lemma ProviderCaseInsensitive(env: map<string, string>, toInt: string -> Result<int>, toReal: string -> Result<real>)
    requires "PROVIDER" in env
    ensures var up := env["PROVIDER" := Upper(env["PROVIDER"])];
      Load(up, toInt, toReal).Ok? ==> Load(up, toInt, toReal).value.provider == Load(env, toInt, toReal).value.provider
  {
    LowerOfUpper(env["PROVIDER"]);
  }

  datatype EmbeddingConfig = EmbeddingConfig(model: string, dimension: int)

  const GeminiDimension: int := 768

  /** `Config.get_embedding_config()`. */
  function GetEmbeddingConfig(c: Settings): (r: EmbeddingConfig)
    ensures c.provider == "gemini" ==> r.dimension == GeminiDimension
    ensures c.provider != "gemini" ==> r.dimension == c.embeddingDimension
    ensures Given(c.embeddingModel) ==> r.model == c.embeddingModel.value
    ensures !Given(c.embeddingModel) ==>
      r.model == (if c.provider == "gemini" then c.geminiEmbeddingModel else c.openaiEmbeddingModel)
  {
    var model := if Given(c.embeddingModel) then c.embeddingModel.value
                 else if c.provider == "gemini" then c.geminiEmbeddingModel
                 else c.openaiEmbeddingModel;
    if c.provider == "gemini" then EmbeddingConfig(model, GeminiDimension)
    else EmbeddingConfig(model, c.embeddingDimension)
  }

  /** With Gemini selected, `EMBEDDING_DIMENSION` has no effect on the configuration. */
  lemma GeminiIgnoresDimension(c: Settings, dimension: int)
    requires c.provider == "gemini"
    ensures GetEmbeddingConfig(c.(embeddingDimension := dimension)) == GetEmbeddingConfig(c)
  {
  }

  /** From the environment: an unset `PROVIDER` means OpenAI, whose dimension is the
      parsed `EMBEDDING_DIMENSION` (1536 when unset) and whose default model is
      "text-embedding-3-small". */
  lemma DefaultProvider(env: map<string, string>, toInt: string -> Result<int>, toReal: string -> Result<real>)
    requires "PROVIDER" !in env && "EMBEDDING_MODEL" !in env && "OPENAI_EMBEDDING_MODEL" !in env
    requires Load(env, toInt, toReal).Ok?
    ensures var c := Load(env, toInt, toReal).value;
      GetEmbeddingConfig(c) == EmbeddingConfig("text-embedding-3-small", toInt(Getenv(env, "EMBEDDING_DIMENSION", "1536")).value)
  {
    var c := Load(env, toInt, toReal).value;
    assert c.provider == Lower("openai");
    assert Lower("openai") == "openai";
  }

  /** `Config.validate()`: `Ok(())` or the `ValueError` it raises. */
  function Validate(c: Settings): (r: Result<()>)
    ensures r.Ok? <==>
      c.neo4jPassword != ""
      && (c.provider == "gemini" ==> Given(c.geminiApiKey))
      && (c.provider != "gemini" ==> Given(c.openaiApiKey))
    ensures c.neo4jPassword == "" ==> r == Err("NEO4J_PASSWORD must be set")
    ensures c.neo4jPassword != "" && c.provider == "gemini" && !Given(c.geminiApiKey) ==>
      r == Err("GEMINI_API_KEY must be set when PROVIDER=gemini")
    ensures c.neo4jPassword != "" && c.provider != "gemini" && !Given(c.openaiApiKey) ==>
      r == Err("OPENAI_API_KEY must be set when PROVIDER=openai")
  {
    if c.neo4jPassword == "" then Err("NEO4J_PASSWORD must be set")
    else if c.provider == "gemini" then
      (if Given(c.geminiApiKey) then Ok(()) else Err("GEMINI_API_KEY must be set when PROVIDER=gemini"))
    else if Given(c.openaiApiKey) then Ok(())
    else Err("OPENAI_API_KEY must be set when PROVIDER=openai")
  }

  /** The password check comes first: without a password the verdict is the same
      whatever the provider and keys. */
  lemma PasswordFirst(c: Settings, provider: string, openai: Option<string>, gemini: Option<string>)
    requires c.neo4jPassword == ""
    ensures Validate(c.(provider := provider, openaiApiKey := openai, geminiApiKey := gemini)) == Validate(c)
  {
  }

  /** Only the selected provider's key matters. */
  lemma OtherKeyIgnored(c: Settings, key: Option<string>)
    ensures c.provider == "gemini" ==> Validate(c.(openaiApiKey := key)) == Validate(c)
    ensures c.provider != "gemini" ==> Validate(c.(geminiApiKey := key)) == Validate(c)
  {
  }

  /** Start-up validation of the loaded settings, in terms of the environment: it passes
      iff NEO4J_PASSWORD is set and non-empty and the key of the lower-cased PROVIDER
      (Gemini's for "gemini", OpenAI's for anything else) is set and non-empty. */
  lemma ValidateLoaded(env: map<string, string>, toInt: string -> Result<int>, toReal: string -> Result<real>)
    requires Load(env, toInt, toReal).Ok?
    ensures var gemini := Lower(Getenv(env, "PROVIDER", "openai")) == "gemini";
      Validate(Load(env, toInt, toReal).value).Ok? <==>
        && "NEO4J_PASSWORD" in env && env["NEO4J_PASSWORD"] != ""
        && (gemini ==> "GEMINI_API_KEY" in env && env["GEMINI_API_KEY"] != "")
        && (!gemini ==> "OPENAI_API_KEY" in env && env["OPENAI_API_KEY"] != "")
  {
  }
}
