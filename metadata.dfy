/** `model metadata`: fetch and print the registry's JSON description of
    one repository. */
module ModelMetadata {
  import opened Wrappers
  import opened Strings
  import opened Fmt
  import opened Json
  import ModelDownload

  /** `{base}/api/models/{repo}` */
  function BuildMetadataUrl(repository: string, apiBaseUrl: string): (url: string)
    ensures url == apiBaseUrl + "/api/models/" + repository
  {
    FormatInfix(apiBaseUrl, "/api/models/", repository);
    Format([Slot, Lit("/api/models/"), Slot], [apiBaseUrl, repository])
  }

  /** The metadata URL is the revision-less file-listing URL. */
  lemma MetadataUrlIsListingUrl(repository: string, apiBaseUrl: string)
    ensures BuildMetadataUrl(repository, apiBaseUrl) == ModelDownload.BuildFileListUrl(repository, None, apiBaseUrl)
  {
  }

  /** The repository id is embedded verbatim: it is the whole tail after the
      fixed prefix, so different ids give different URLs. */
  lemma MetadataUrlEmbedsRepository(repository: string, other: string, apiBaseUrl: string)
    ensures StartsWith(BuildMetadataUrl(repository, apiBaseUrl), apiBaseUrl + "/api/models/")
    ensures BuildMetadataUrl(repository, apiBaseUrl)[|apiBaseUrl + "/api/models/"|..] == repository
    ensures BuildMetadataUrl(repository, apiBaseUrl) == BuildMetadataUrl(other, apiBaseUrl) ==> repository == other
  {
    var prefix := apiBaseUrl + "/api/models/";
    assert (prefix + repository)[..|prefix|] == prefix;
    assert (prefix + repository)[|prefix|..] == repository;
    assert (prefix + other)[|prefix|..] == other;
  }

  /** One run of `metadata`: the URL requested, the document printed (its
      serialisation is not modelled), and the result. */
  datatype MetadataRun = MetadataRun(url: string, printed: Option<Json>, result: Result<()>)

  /** `metadata`: formats its own URL inline, issues one GET and prints the
      JSON body. */
  function Metadata(repository: string, apiBaseUrl: string, reply: Reply): (run: MetadataRun)
    ensures run.url == BuildMetadataUrl(repository, apiBaseUrl)
    ensures run.result.Ok? <==> reply.Response? && reply.success && reply.body.Some?
    ensures run.result.Ok? ==> run.printed == reply.body
    ensures run.result.Err? ==> run.printed.None?
    ensures reply.Unreachable? ==> run.result == Err(Transport)
    ensures reply.Response? && !reply.success ==>
      run.result == Err(Failure("Failed to get metadata for " + repository))
    ensures reply.Response? && reply.success && reply.body.None? ==> run.result == Err(Parse)
  {
    FormatInfix(apiBaseUrl, "/api/models/", repository);
    var url := Format([Slot, Lit("/api/models/"), Slot], [apiBaseUrl, repository]);
    match reply
    case Unreachable => MetadataRun(url, None, Err(Transport))
    case Response(success, body) =>
      if !success then MetadataRun(url, None, Err(Failure("Failed to get metadata for " + repository)))
      else match body
        case None => MetadataRun(url, None, Err(Parse))
        case Some(metadata) => MetadataRun(url, Some(metadata), Ok(()))
  }

  // The in-file unit tests' expected URLs.

  lemma MetadataUrlExample()
    ensures BuildMetadataUrl("TheBloke/Llama-2-7B-Chat-GPTQ", "https://huggingface.co")
         == "https://huggingface.co/api/models/TheBloke/Llama-2-7B-Chat-GPTQ"
  {
    ModelDownload.FileListUrlNoRevisionExample();
  }

  lemma MetadataUrlSimpleNameExample()
    ensures BuildMetadataUrl("gpt2", "https://huggingface.co") == "https://huggingface.co/api/models/gpt2"
  {
    ModelDownload.HubListingPrefixSpelling();
    assert "https://huggingface.co/api/models/" + "gpt2" == "https://huggingface.co/api/models/gpt2";
  }

  lemma MetadataUrlSpecialCharsExample()
    ensures BuildMetadataUrl("microsoft/DialoGPT-medium", "https://huggingface.co")
         == "https://huggingface.co/api/models/microsoft/DialoGPT-medium"
  {
    ModelDownload.HubListingPrefixSpelling();
    DialoUrlSpelling();
  }

  // Literal spelling only: keeps the example proof above cheap.
  lemma DialoUrlSpelling()
    ensures "https://huggingface.co/api/models/" + "microsoft/DialoGPT-medium"
         == "https://huggingface.co/api/models/microsoft/DialoGPT-medium"
  {
  }

  lemma MetadataUrlCustomBaseExample()
    ensures BuildMetadataUrl("test/model", "http://localhost:8080") == "http://localhost:8080/api/models/test/model"
  {
    ModelDownload.LocalListingUrlSpelling();
  }
}
