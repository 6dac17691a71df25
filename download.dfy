/** `model download`: list the files of a repository at a revision, drop
    legacy weight files when consolidated `model*.safetensors` weights are
    present, and fetch each remaining file from its resolve URL. */
module ModelDownload {
  import opened Wrappers
  import opened Strings
  import opened Fmt
  import opened Json
  import Glob

  /** The branch a resolve URL names when no revision is given. */
  const DefaultRevision: string := "main"

  // ---------------------------------------------------------------------
  // URL builders

  /** `{base}/api/models/{repo}`, then `/revision/{rev}` only when a
      revision is given. */
  function BuildFileListUrl(repository: string, revision: Option<string>, apiBaseUrl: string): (url: string)
    ensures url == apiBaseUrl + "/api/models/" + repository
                   + (match revision case Some(rev) => "/revision/" + rev case None => "")
  {
    var url := Format([Slot, Lit("/api/models/"), Slot], [apiBaseUrl, repository]);
    FormatInfix(apiBaseUrl, "/api/models/", repository);
    match revision
    case Some(rev) =>
      FormatInfix(url, "/revision/", rev);
      Format([Slot, Lit("/revision/"), Slot], [url, rev])
    case None => url
  }

  /** `{base}/{repo}/resolve/{rev or "main"}/{file}` */
  function BuildDownloadUrl(repository: string, revision: Option<string>, filename: string, apiBaseUrl: string): (url: string)
    ensures url == apiBaseUrl + "/" + repository + "/resolve/" + revision.GetOr(DefaultRevision) + "/" + filename
  {
    var revision := revision.GetOr(DefaultRevision);
    FormatFour(apiBaseUrl, "/", repository, "/resolve/", revision, "/", filename);
    Format([Slot, Lit("/"), Slot, Lit("/resolve/"), Slot, Lit("/"), Slot],
           [apiBaseUrl, repository, revision, filename])
  }

  /** A revision extends the revision-less listing URL by `/revision/{rev}`,
      so the revision-less URL is a prefix of it. */
  lemma FileListUrlWithRevision(repository: string, rev: string, apiBaseUrl: string)
    ensures BuildFileListUrl(repository, Some(rev), apiBaseUrl)
         == BuildFileListUrl(repository, None, apiBaseUrl) + "/revision/" + rev
    ensures StartsWith(BuildFileListUrl(repository, Some(rev), apiBaseUrl),
                       BuildFileListUrl(repository, None, apiBaseUrl))
  {
  }

  /** Neither part is escaped, so a repository id that contains
      `/revision/` gives the same listing URL as a shorter id with a
      revision. */
  lemma FileListUrlUnescaped(owner: string, rev: string, apiBaseUrl: string)
    ensures BuildFileListUrl(owner + "/revision/" + rev, None, apiBaseUrl)
         == BuildFileListUrl(owner, Some(rev), apiBaseUrl)
  {
  }

  /** Different file names resolve to different URLs: the name is the whole
      tail after the fixed prefix. */
  lemma DownloadUrlNamesFile(repository: string, revision: Option<string>, filename: string, other: string, apiBaseUrl: string)
    ensures var prefix := apiBaseUrl + "/" + repository + "/resolve/" + revision.GetOr(DefaultRevision) + "/";
      BuildDownloadUrl(repository, revision, filename, apiBaseUrl)[|prefix|..] == filename
    ensures filename != other ==>
      BuildDownloadUrl(repository, revision, filename, apiBaseUrl) != BuildDownloadUrl(repository, revision, other, apiBaseUrl)
  {
    var prefix := apiBaseUrl + "/" + repository + "/resolve/" + revision.GetOr(DefaultRevision) + "/";
    assert (prefix + filename)[|prefix|..] == filename;
    assert (prefix + other)[|prefix|..] == other;
  }

  /** No revision and the revision "main" give the same resolve URL. */
  lemma DownloadUrlDefaultsToMain(repository: string, filename: string, apiBaseUrl: string)
    ensures BuildDownloadUrl(repository, None, filename, apiBaseUrl)
         == BuildDownloadUrl(repository, Some("main"), filename, apiBaseUrl)
  {
  }

  // The in-file unit tests' expected URLs.

  lemma FileListUrlNoRevisionExample()
    ensures BuildFileListUrl("TheBloke/Llama-2-7B-Chat-GPTQ", None, "https://huggingface.co")
         == "https://huggingface.co/api/models/TheBloke/Llama-2-7B-Chat-GPTQ"
  {
    ListingUrlSpelling();
  }

  lemma FileListUrlWithRevisionExample()
    ensures BuildFileListUrl("TheBloke/Llama-2-7B-Chat-GPTQ", Some("gptq-4bit-64g-actorder_True"), "https://huggingface.co")
         == "https://huggingface.co/api/models/TheBloke/Llama-2-7B-Chat-GPTQ/revision/gptq-4bit-64g-actorder_True"
  {
    ListingUrlSpelling();
    RevisionUrlSpelling();
  }

  lemma DownloadUrlMainBranchExample()
    ensures BuildDownloadUrl("TheBloke/Llama-2-7B-Chat-GPTQ", None, "model.safetensors", "https://huggingface.co")
         == "https://huggingface.co/TheBloke/Llama-2-7B-Chat-GPTQ/resolve/main/model.safetensors"
  {
    MainResolveUrlSpelling();
  }

  lemma DownloadUrlWithRevisionExample()
    ensures BuildDownloadUrl("TheBloke/Llama-2-7B-Chat-GPTQ", Some("gptq-4bit-64g-actorder_True"), "model.safetensors", "https://huggingface.co")
         == "https://huggingface.co/TheBloke/Llama-2-7B-Chat-GPTQ/resolve/gptq-4bit-64g-actorder_True/model.safetensors"
  {
    RevisionResolveUrlSpelling();
  }

  lemma FileListUrlCustomBaseExample()
    ensures BuildFileListUrl("test/model", None, "http://localhost:8080")
         == "http://localhost:8080/api/models/test/model"
  {
    LocalListingUrlSpelling();
  }

  lemma DownloadUrlCustomBaseExample()
    ensures BuildDownloadUrl("test/model", None, "file.txt", "http://localhost:8080")
         == "http://localhost:8080/test/model/resolve/main/file.txt"
  {
    LocalResolveUrlSpelling();
  }

  // Literal spellings. Each lemma below only states that some string
  // literals concatenate to a longer literal; they state nothing about the
  // model and exist solely to keep the example proofs above cheap for the
  // solver.

  lemma ListingUrlSpelling()
    ensures "https://huggingface.co" + "/api/models/" + "TheBloke/Llama-2-7B-Chat-GPTQ"
         == "https://huggingface.co/api/models/TheBloke/Llama-2-7B-Chat-GPTQ"
  {
    HubListingPrefixSpelling();
    ListingUrlSpellingTail();
  }

  lemma HubListingPrefixSpelling()
    ensures "https://huggingface.co" + "/api/models/" == "https://huggingface.co/api/models/"
  {
  }

  lemma ListingUrlSpellingTail()
    ensures "https://huggingface.co/api/models/" + "TheBloke/Llama-2-7B-Chat-GPTQ"
         == "https://huggingface.co/api/models/TheBloke/Llama-2-7B-Chat-GPTQ"
  {
  }

  lemma RevisionUrlSpelling()
    ensures "https://huggingface.co/api/models/TheBloke/Llama-2-7B-Chat-GPTQ" + "/revision/" + "gptq-4bit-64g-actorder_True"
         == "https://huggingface.co/api/models/TheBloke/Llama-2-7B-Chat-GPTQ/revision/gptq-4bit-64g-actorder_True"
  {
    RevisionUrlSpellingPrefix();
  }

  lemma RevisionUrlSpellingPrefix()
    ensures "https://huggingface.co/api/models/TheBloke/Llama-2-7B-Chat-GPTQ" + "/revision/"
         == "https://huggingface.co/api/models/TheBloke/Llama-2-7B-Chat-GPTQ/revision/"
  {
  }

  lemma ResolveUrlSpellingStem()
    ensures "https://huggingface.co" + "/" + "TheBloke/Llama-2-7B-Chat-GPTQ" + "/resolve/"
         == "https://huggingface.co/TheBloke/Llama-2-7B-Chat-GPTQ/resolve/"
  {
  }

  lemma MainResolveUrlSpelling()
    ensures "https://huggingface.co" + "/" + "TheBloke/Llama-2-7B-Chat-GPTQ" + "/resolve/" + "main" + "/" + "model.safetensors"
         == "https://huggingface.co/TheBloke/Llama-2-7B-Chat-GPTQ/resolve/main/model.safetensors"
  {
    ResolveUrlSpellingStem();
    MainResolveUrlSpellingTail();
  }

  lemma MainResolveUrlSpellingTail()
    ensures "https://huggingface.co/TheBloke/Llama-2-7B-Chat-GPTQ/resolve/" + "main" + "/" + "model.safetensors"
         == "https://huggingface.co/TheBloke/Llama-2-7B-Chat-GPTQ/resolve/main/model.safetensors"
  {
  }

  lemma RevisionResolveUrlSpelling()
    ensures "https://huggingface.co" + "/" + "TheBloke/Llama-2-7B-Chat-GPTQ" + "/resolve/" + "gptq-4bit-64g-actorder_True" + "/" + "model.safetensors"
         == "https://huggingface.co/TheBloke/Llama-2-7B-Chat-GPTQ/resolve/gptq-4bit-64g-actorder_True/model.safetensors"
  {
    ResolveUrlSpellingStem();
    RevisionResolveUrlSpellingMiddle();
    RevisionResolveUrlSpellingTail();
  }

  lemma RevisionResolveUrlSpellingMiddle()
    ensures "https://huggingface.co/TheBloke/Llama-2-7B-Chat-GPTQ/resolve/" + "gptq-4bit-64g-actorder_True" + "/"
         == "https://huggingface.co/TheBloke/Llama-2-7B-Chat-GPTQ/resolve/gptq-4bit-64g-actorder_True/"
  {
  }

  lemma RevisionResolveUrlSpellingTail()
    ensures "https://huggingface.co/TheBloke/Llama-2-7B-Chat-GPTQ/resolve/gptq-4bit-64g-actorder_True/" + "model.safetensors"
         == "https://huggingface.co/TheBloke/Llama-2-7B-Chat-GPTQ/resolve/gptq-4bit-64g-actorder_True/model.safetensors"
  {
  }

  lemma LocalListingUrlSpelling()
    ensures "http://localhost:8080" + "/api/models/" + "test/model" == "http://localhost:8080/api/models/test/model"
  {
  }

  lemma LocalResolveUrlSpelling()
    ensures "http://localhost:8080" + "/" + "test/model" + "/resolve/" + "main" + "/" + "file.txt"
         == "http://localhost:8080/test/model/resolve/main/file.txt"
  {
  }

  // ---------------------------------------------------------------------
  // Ignore filter

  /** A consolidated weights file in the modern format. */
  predicate IsModelSafetensors(name: string) {
    StartsWith(name, "model") && EndsWith(name, ".safetensors")
  }

  /** `files.iter().any(IsModelSafetensors)`, scanning from the front. */
  predicate HasSafetensor(files: seq<string>)
    ensures HasSafetensor(files) ==> exists i :: 0 <= i < |files| && IsModelSafetensors(files[i])
  {
    if files == [] then false
    else if IsModelSafetensors(files[0]) then true
    else
      var found := HasSafetensor(files[1..]);
      assert found ==> exists j :: 0 <= j < |files[1..]| && IsModelSafetensors(files[1..][j]);
      assert forall j :: 0 <= j < |files[1..]| ==> files[1..][j] == files[j + 1];
      found
  }

  lemma {:induction false} HasSafetensorIff(files: seq<string>)
    ensures HasSafetensor(files) <==> exists i :: 0 <= i < |files| && IsModelSafetensors(files[i])
  {
    if files != [] {
      HasSafetensorIff(files[1..]);
      if exists i :: 0 <= i < |files| && IsModelSafetensors(files[i]) {
        var i :| 0 <= i < |files| && IsModelSafetensors(files[i]);
        if i > 0 {
          assert files[1..][i - 1] == files[i];
        }
      }
      if exists j :: 0 <= j < |files[1..]| && IsModelSafetensors(files[1..][j]) {
        var j :| 0 <= j < |files[1..]| && IsModelSafetensors(files[1..][j]);
        assert files[j + 1] == files[1..][j];
      }
    }
  }

  /** The legacy weight formats skipped when modern weights are present. */
  const IgnorePatterns: seq<string> := ["*.pt", "*.bin"]

  predicate AnyPatternMatches(patterns: seq<string>, name: string)
  {
    patterns != [] && (Glob.Matches(patterns[0], name) || AnyPatternMatches(patterns[1..], name))
  }

  /** `should_ignore_file`: a legacy pattern is applied only when modern
      weights are present. */
  predicate ShouldIgnoreFile(filename: string, hasSafetensors: bool)
    ensures ShouldIgnoreFile(filename, hasSafetensors) ==> hasSafetensors
  {
    if !hasSafetensors then false
    else AnyPatternMatches(IgnorePatterns, filename)
  }

  /** A file is skipped iff modern weights are present and its name ends in
      `.pt` or `.bin`; nothing is skipped otherwise. */
  lemma ShouldIgnoreFileIff(filename: string, hasSafetensors: bool)
    ensures ShouldIgnoreFile(filename, hasSafetensors)
        <==> hasSafetensors && (EndsWith(filename, ".pt") || EndsWith(filename, ".bin"))
  {
    assert "*.pt" == ['*'] + ".pt";
    assert "*.bin" == ['*'] + ".bin";
    Glob.StarSuffix(".pt", filename);
    Glob.StarSuffix(".bin", filename);
    assert IgnorePatterns[0] == "*.pt" && IgnorePatterns[1..] == ["*.bin"];
    assert IgnorePatterns[1..][1..] == [];
    assert AnyPatternMatches(IgnorePatterns[1..][1..], filename) == false;
    assert AnyPatternMatches(IgnorePatterns[1..], filename) == Glob.Matches("*.bin", filename);
  }

  /** Modern weights and JSON files are never skipped. */
  lemma NeverIgnoresSafetensorsOrJson(filename: string, hasSafetensors: bool)
    requires EndsWith(filename, ".safetensors") || EndsWith(filename, ".json")
    ensures !ShouldIgnoreFile(filename, hasSafetensors)
  {
    ShouldIgnoreFileIff(filename, hasSafetensors);
    if EndsWith(filename, ".pt") {
      if EndsWith(filename, ".safetensors") {
        EndsWithBoth(filename, ".pt", ".safetensors");
      } else {
        EndsWithBoth(filename, ".pt", ".json");
      }
    }
    if EndsWith(filename, ".bin") {
      if EndsWith(filename, ".safetensors") {
        EndsWithBoth(filename, ".bin", ".safetensors");
      } else {
        EndsWithBoth(filename, ".bin", ".json");
      }
    }
  }

  // The in-file unit tests' expected decisions.

  lemma IgnoreWithoutSafetensorsExample()
    ensures !ShouldIgnoreFile("model.bin", false) && !ShouldIgnoreFile("model.pt", false)
    ensures !ShouldIgnoreFile("model.safetensors", false)
  {
  }

  /** Legacy weight names are skipped once modern weights are present. */
  lemma LegacyIgnored(filename: string)
    requires EndsWith(filename, ".pt") || EndsWith(filename, ".bin")
    ensures ShouldIgnoreFile(filename, true)
  {
    ShouldIgnoreFileIff(filename, true);
  }

  lemma IgnoreWithSafetensorsExample()
    ensures ShouldIgnoreFile("model.bin", true) && ShouldIgnoreFile("model.pt", true)
    ensures ShouldIgnoreFile("pytorch_model.bin", true)
    ensures !ShouldIgnoreFile("model.safetensors", true) && !ShouldIgnoreFile("config.json", true)
  {
    LegacyIgnored("model.bin");
    LegacyIgnored("model.pt");
    LegacyIgnored("pytorch_model.bin");
    NeverIgnoresSafetensorsOrJson("model.safetensors", true);
    NeverIgnoresSafetensorsOrJson("config.json", true);
  }

  lemma IgnorePatternsExample()
    ensures ShouldIgnoreFile("anything.pt", true) && ShouldIgnoreFile("anything.bin", true)
    ensures !ShouldIgnoreFile("anything.safetensors", true) && !ShouldIgnoreFile("model.json", true)
  {
    LegacyIgnored("anything.pt");
    LegacyIgnored("anything.bin");
    NeverIgnoresSafetensorsOrJson("anything.safetensors", true);
    NeverIgnoresSafetensorsOrJson("model.json", true);
  }

  /** `files.into_iter().filter(|f| !should_ignore_file(f, h))` */
  function Keep(files: seq<string>, hasSafetensors: bool): (kept: seq<string>)
    ensures |kept| <= |files|
    ensures forall x :: x in kept ==> x in files
  {
    if files == [] then []
    else (if ShouldIgnoreFile(files[0], hasSafetensors) then [] else [files[0]])
         + Keep(files[1..], hasSafetensors)
  }

  /** The files a download fetches, in listing order. */
  function FilesToDownload(files: seq<string>): (scheduled: seq<string>)
    ensures |scheduled| <= |files|
    ensures !HasSafetensor(files) ==> scheduled == files
  {
    if !HasSafetensor(files) then
      KeepAllWithoutSafetensors(files);
      Keep(files, false)
    else
      Keep(files, true)
  }

  lemma {:induction false} KeepAppend(a: seq<string>, b: seq<string>, h: bool)
    ensures Keep(a + b, h) == Keep(a, h) + Keep(b, h)
  {
    if a == [] {
      assert a + b == b;
    } else {
      assert (a + b)[1..] == a[1..] + b;
      KeepAppend(a[1..], b, h);
    }
  }

  /** Each name occurs in the result as often as in the listing (duplicates
      included), unless it is skipped, and then not at all. */
  lemma {:induction false} KeepMultiplicity(files: seq<string>, h: bool, x: string)
    ensures multiset(Keep(files, h))[x] == if ShouldIgnoreFile(x, h) then 0 else multiset(files)[x]
  {
    if files != [] {
      KeepMultiplicity(files[1..], h, x);
      var head := if ShouldIgnoreFile(files[0], h) then [] else [files[0]];
      assert Keep(files, h) == head + Keep(files[1..], h);
      assert multiset(Keep(files, h)) == multiset(head) + multiset(Keep(files[1..], h));
      assert files == [files[0]] + files[1..];
      assert multiset(files) == multiset([files[0]]) + multiset(files[1..]);
    }
  }

  lemma KeepMembers(files: seq<string>, h: bool, x: string)
    ensures x in Keep(files, h) <==> x in files && !ShouldIgnoreFile(x, h)
  {
    KeepMultiplicity(files, h, x);
  }

  /** `sub` can be obtained from `s` by deleting elements. */
  predicate IsSubsequence(sub: seq<string>, s: seq<string>)
    decreases |s|
  {
    if sub == [] then true
    else if s == [] then false
    else if sub[0] == s[0] then IsSubsequence(sub[1..], s[1..])
    else IsSubsequence(sub, s[1..])
  }

  lemma {:induction false} KeepIsSubsequence(files: seq<string>, h: bool)
    ensures IsSubsequence(Keep(files, h), files)
  {
    if files != [] {
      KeepIsSubsequence(files[1..], h);
      var rest := Keep(files[1..], h);
      if ShouldIgnoreFile(files[0], h) {
        assert Keep(files, h) == rest;
        if rest != [] {
          KeepMembers(files[1..], h, rest[0]);
          assert rest[0] != files[0];
        }
      } else {
        assert ([files[0]] + rest)[1..] == rest;
      }
    }
  }

  lemma {:induction false} KeepAllWithoutSafetensors(files: seq<string>)
    ensures Keep(files, false) == files
  {
    if files != [] {
      KeepAllWithoutSafetensors(files[1..]);
      assert [files[0]] + files[1..] == files;
    }
  }

  /** The scheduled files are the listing with the skipped names removed:
      a subsequence of it, each kept name as often as listed; the whole
      listing when no `model*.safetensors` is listed; and with modern
      weights listed, no `.pt`/`.bin` name and every `.safetensors`/`.json`
      name of the listing. */
  lemma FilesToDownloadSpec(files: seq<string>)
    ensures IsSubsequence(FilesToDownload(files), files)
    ensures forall x :: multiset(FilesToDownload(files))[x]
                        == if ShouldIgnoreFile(x, HasSafetensor(files)) then 0 else multiset(files)[x]
    ensures !HasSafetensor(files) ==> FilesToDownload(files) == files
    ensures HasSafetensor(files) ==>
      forall x :: x in FilesToDownload(files) ==> !EndsWith(x, ".pt") && !EndsWith(x, ".bin")
    ensures forall x :: x in files && (EndsWith(x, ".safetensors") || EndsWith(x, ".json"))
                        ==> x in FilesToDownload(files)
  {
    var h := HasSafetensor(files);
    KeepIsSubsequence(files, h);
    forall x ensures multiset(FilesToDownload(files))[x]
                     == if ShouldIgnoreFile(x, h) then 0 else multiset(files)[x] {
      KeepMultiplicity(files, h, x);
    }
    if !h {
      KeepAllWithoutSafetensors(files);
    }
    forall x | x in FilesToDownload(files) ensures h ==> !EndsWith(x, ".pt") && !EndsWith(x, ".bin") {
      KeepMembers(files, h, x);
      ShouldIgnoreFileIff(x, h);
    }
    forall x | x in files && (EndsWith(x, ".safetensors") || EndsWith(x, ".json"))
      ensures x in FilesToDownload(files) {
      NeverIgnoresSafetensorsOrJson(x, h);
      KeepMembers(files, h, x);
    }
  }

  // ---------------------------------------------------------------------
  // Listing

  /** The `rfilename` strings of the `siblings` array, in order; no array
      means no files. */
  function SiblingFiles(modelInfo: Json): (files: seq<string>)
    ensures ArrayField(modelInfo, "siblings").None? ==> files == []
    ensures ArrayField(modelInfo, "siblings").Some? ==> |files| <= |ArrayField(modelInfo, "siblings").value|
  {
    match ArrayField(modelInfo, "siblings")
    case Some(siblings) => StringsAt(siblings, "rfilename")
    case None => []
  }

  lemma SiblingFilesSpec(modelInfo: Json)
    ensures ArrayField(modelInfo, "siblings").None? ==> SiblingFiles(modelInfo) == []
    ensures forall s :: s in SiblingFiles(modelInfo) <==>
      ArrayField(modelInfo, "siblings").Some? &&
      exists i :: 0 <= i < |ArrayField(modelInfo, "siblings").value| &&
                  StrField(ArrayField(modelInfo, "siblings").value[i], "rfilename") == Some(s)
  {
    if ArrayField(modelInfo, "siblings").Some? {
      forall s ensures s in SiblingFiles(modelInfo) <==>
        exists i :: 0 <= i < |ArrayField(modelInfo, "siblings").value| &&
                    StrField(ArrayField(modelInfo, "siblings").value[i], "rfilename") == Some(s) {
        StringsAtMembers(ArrayField(modelInfo, "siblings").value, "rfilename", s);
      }
    }
  }

  datatype Listing = Listing(url: string, files: Result<seq<string>>)

  /** `list_files`: one GET to the listing URL. */
  function ListFiles(repository: string, revision: Option<string>, apiBaseUrl: string, reply: Reply): (listing: Listing)
    ensures listing.url == BuildFileListUrl(repository, revision, apiBaseUrl)
    ensures listing.files.Ok? <==> reply.Response? && reply.success && reply.body.Some?
    ensures listing.files.Ok? ==> listing.files.value == SiblingFiles(reply.body.value)
    ensures reply.Unreachable? ==> listing.files == Err(Transport)
    ensures reply.Response? && !reply.success ==>
      listing.files == Err(Failure("Failed to list files for " + repository))
    ensures reply.Response? && reply.success && reply.body.None? ==> listing.files == Err(Parse)
  {
    var url := BuildFileListUrl(repository, revision, apiBaseUrl);
    match reply
    case Unreachable => Listing(url, Err(Transport))
    case Response(success, body) =>
      if !success then Listing(url, Err(Failure("Failed to list files for " + repository)))
      else match body
        case None => Listing(url, Err(Parse))
        case Some(modelInfo) => Listing(url, Ok(SiblingFiles(modelInfo)))
  }

  // ---------------------------------------------------------------------
  // Download batch

  /** How one file's task ends: the GET failed, the status was not success
      (logged only), creating the local file failed, reading a chunk of the
      body failed, copying a chunk into the file failed, or every chunk was
      written. The last three leave a (possibly truncated) local file. */
  datatype FileOutcome = SendFailed | StatusFailed | CreateFailed | ChunkFailed | WriteFailed | Completed

  /** The value the task returns (and `join_all` then discards). */
  function TaskResult(outcome: FileOutcome): (r: Result<()>)
    ensures r.Ok? <==> outcome == StatusFailed || outcome == Completed
    ensures r.Err? ==> r.error == Transport || r.error == Io
  {
    match outcome
    case SendFailed => Err(Transport)
    case StatusFailed => Ok(())
    case CreateFailed => Err(Io)
    case ChunkFailed => Err(Transport)
    case WriteFailed => Err(Io)
    case Completed => Ok(())
  }

  /** Whether the task created its local file (complete or truncated). */
  predicate CreatesFile(outcome: FileOutcome) {
    outcome == ChunkFailed || outcome == WriteFailed || outcome == Completed
  }

  function ResolveUrls(repository: string, revision: Option<string>, apiBaseUrl: string, files: seq<string>): (urls: seq<string>)
    ensures |urls| == |files|
    ensures forall i :: 0 <= i < |files| ==> urls[i] == BuildDownloadUrl(repository, revision, files[i], apiBaseUrl)
  {
    if files == [] then []
    else [BuildDownloadUrl(repository, revision, files[0], apiBaseUrl)]
         + ResolveUrls(repository, revision, apiBaseUrl, files[1..])
  }

  /** The outcome of each spawned task, in schedule order: task `i` requests
      `urls[i]` and ends as `fetch(i, urls[i])`. Each listing entry gets a
      task of its own, so two entries with the same name may end
      differently. */
  function Outcomes(urls: seq<string>, fetch: (nat, string) -> FileOutcome): (outcomes: seq<FileOutcome>)
    ensures |outcomes| == |urls|
    ensures forall i :: 0 <= i < |urls| ==> outcomes[i] == fetch(i, urls[i])
  {
    seq(|urls|, i requires 0 <= i < |urls| => fetch(i, urls[i]))
  }

  /** The scheduled names whose task created its local file in this run,
      in schedule order, once per such task. */
  function WrittenFiles(files: seq<string>, outcomes: seq<FileOutcome>): (written: seq<string>)
    requires |outcomes| == |files|
    ensures |written| <= |files|
    ensures forall x :: x in written ==> x in files
  {
    if files == [] then []
    else (if CreatesFile(outcomes[0]) then [files[0]] else []) + WrittenFiles(files[1..], outcomes[1..])
  }

  lemma {:induction false} WrittenFilesMembers(files: seq<string>, outcomes: seq<FileOutcome>, x: string)
    requires |outcomes| == |files|
    ensures x in WrittenFiles(files, outcomes) <==>
            exists i :: 0 <= i < |files| && files[i] == x && CreatesFile(outcomes[i])
  {
    if files != [] {
      WrittenFilesMembers(files[1..], outcomes[1..], x);
      if exists i :: 0 <= i < |files| && files[i] == x && CreatesFile(outcomes[i]) {
        var i :| 0 <= i < |files| && files[i] == x && CreatesFile(outcomes[i]);
        if i > 0 {
          assert files[1..][i - 1] == x && outcomes[1..][i - 1] == outcomes[i];
        }
      }
      if exists j :: 0 <= j < |files[1..]| && files[1..][j] == x && CreatesFile(outcomes[1..][j]) {
        var j :| 0 <= j < |files[1..]| && files[1..][j] == x && CreatesFile(outcomes[1..][j]);
        assert files[j + 1] == x && outcomes[j + 1] == outcomes[1..][j];
      }
    }
  }

  function TaskResults(outcomes: seq<FileOutcome>): (results: seq<Result<()>>)
    ensures |results| == |outcomes|
    ensures forall i :: 0 <= i < |outcomes| ==> results[i] == TaskResult(outcomes[i])
  {
    if outcomes == [] then [] else [TaskResult(outcomes[0])] + TaskResults(outcomes[1..])
  }

  /** One run of `download`: the listing URL requested (if the destination
      directory was ready), the resolve URLs requested, the files this run
      created, the discarded task results, and the overall result. */
  datatype DownloadRun = DownloadRun(
    listUrl: Option<string>,
    fetched: seq<string>,
    written: seq<string>,
    tasks: seq<Result<()>>,
    result: Result<()>)

  /** `download`. `dirReady` says whether the destination directory existed
      or was created; `fetch(i, url)` gives the outcome of the `i`-th
      spawned task, which requests `url`. */
  function Download(repository: string, revision: Option<string>, apiBaseUrl: string,
                    dirReady: bool, listReply: Reply, fetch: (nat, string) -> FileOutcome): (run: DownloadRun)
    ensures !dirReady ==> run == DownloadRun(None, [], [], [], Err(Io))
    ensures dirReady ==> run.listUrl == Some(BuildFileListUrl(repository, revision, apiBaseUrl))
    ensures dirReady && ListFiles(repository, revision, apiBaseUrl, listReply).files.Err? ==>
      run.fetched == [] && run.written == [] && run.tasks == [] &&
      run.result == Err(ListFiles(repository, revision, apiBaseUrl, listReply).files.error)
    ensures dirReady && ListFiles(repository, revision, apiBaseUrl, listReply).files.Ok? ==>
      var scheduled := FilesToDownload(ListFiles(repository, revision, apiBaseUrl, listReply).files.value);
      && run.result == Ok(())
      && |run.fetched| == |scheduled| == |run.tasks|
      && (forall i :: 0 <= i < |scheduled| ==>
            run.fetched[i] == BuildDownloadUrl(repository, revision, scheduled[i], apiBaseUrl)
            && run.tasks[i] == TaskResult(fetch(i, run.fetched[i])))
      && (forall x :: x in run.written <==>
            exists i :: 0 <= i < |scheduled| && scheduled[i] == x && CreatesFile(fetch(i, run.fetched[i])))
  {
    if !dirReady then DownloadRun(None, [], [], [], Err(Io))
    else
      var listing := ListFiles(repository, revision, apiBaseUrl, listReply);
      match listing.files
      case Err(e) => DownloadRun(Some(listing.url), [], [], [], Err(e))
      case Ok(files) =>
        var scheduled := FilesToDownload(files);
        var urls := ResolveUrls(repository, revision, apiBaseUrl, scheduled);
        var outcomes := Outcomes(urls, fetch);
        var written := WrittenFiles(scheduled, outcomes);
        assert forall x :: x in written <==>
            exists i :: 0 <= i < |scheduled| && scheduled[i] == x && CreatesFile(fetch(i, urls[i])) by {
          forall x {
            WrittenFilesMembers(scheduled, outcomes, x);
          }
        }
        DownloadRun(Some(listing.url), urls, written, TaskResults(outcomes), Ok(()))
  }

  /** The overall result and the requests made do not depend on how any file
      download ends. */
  lemma DownloadIgnoresFileOutcomes(repository: string, revision: Option<string>, apiBaseUrl: string,
                                    dirReady: bool, listReply: Reply,
                                    fetch1: (nat, string) -> FileOutcome, fetch2: (nat, string) -> FileOutcome)
    ensures Download(repository, revision, apiBaseUrl, dirReady, listReply, fetch1).result
         == Download(repository, revision, apiBaseUrl, dirReady, listReply, fetch2).result
    ensures Download(repository, revision, apiBaseUrl, dirReady, listReply, fetch1).fetched
         == Download(repository, revision, apiBaseUrl, dirReady, listReply, fetch2).fetched
  {
  }

  // ---------------------------------------------------------------------
  // End-to-end scenarios

  /** A listing body `{"siblings": [{"rfilename": n} for n in names]}`. */
  function SiblingsBody(names: seq<string>): (body: Json)
    ensures SiblingFiles(body) == names
  {
    var siblings := seq(|names|, i requires 0 <= i < |names| => JObj(map["rfilename" := JStr(names[i])]));
    var body := JObj(map["siblings" := JArr(siblings)]);
    assert ArrayField(body, "siblings") == Some(siblings);
    StringsAtAllPresent(siblings, "rfilename");
    body
  }

  /** A served listing: the run requests the resolve URL of every scheduled
      file, in order, and reports `Ok`. */
  lemma ServedListingRun(repository: string, apiBaseUrl: string, files: seq<string>,
                         fetch: (nat, string) -> FileOutcome)
    ensures var run := Download(repository, None, apiBaseUrl, true, Response(true, Some(SiblingsBody(files))), fetch);
      var urls := ResolveUrls(repository, None, apiBaseUrl, FilesToDownload(files));
      && run.result == Ok(())
      && run.fetched == urls
      && run.tasks == TaskResults(Outcomes(urls, fetch))
      && run.written == WrittenFiles(FilesToDownload(files), Outcomes(urls, fetch))
  {
    assert ListFiles(repository, None, apiBaseUrl, Response(true, Some(SiblingsBody(files)))).files == Ok(files);
  }

  /** A schedule of two files: two requests, two tasks, in order. */
  lemma TwoFileRun(repository: string, apiBaseUrl: string, a: string, b: string,
                   fetch: (nat, string) -> FileOutcome)
    ensures var ua := BuildDownloadUrl(repository, None, a, apiBaseUrl);
      var ub := BuildDownloadUrl(repository, None, b, apiBaseUrl);
      && ResolveUrls(repository, None, apiBaseUrl, [a, b]) == [ua, ub]
      && Outcomes([ua, ub], fetch) == [fetch(0, ua), fetch(1, ub)]
      && TaskResults([fetch(0, ua), fetch(1, ub)]) == [TaskResult(fetch(0, ua)), TaskResult(fetch(1, ub))]
      && WrittenFiles([a, b], [fetch(0, ua), fetch(1, ub)])
         == (if CreatesFile(fetch(0, ua)) then [a] else []) + (if CreatesFile(fetch(1, ub)) then [b] else [])
  {
    var ua := BuildDownloadUrl(repository, None, a, apiBaseUrl);
    var ub := BuildDownloadUrl(repository, None, b, apiBaseUrl);
    var outcomes := [fetch(0, ua), fetch(1, ub)];
    assert [a, b][1..] == [b] && outcomes[1..] == [fetch(1, ub)];
    assert WrittenFiles([b], [fetch(1, ub)]) == (if CreatesFile(fetch(1, ub)) then [b] else []) + [];
  }

  lemma ScheduleConfigAndWeights()
    ensures FilesToDownload(["config.json", "model.safetensors"]) == ["config.json", "model.safetensors"]
  {
    var files := ["config.json", "model.safetensors"];
    assert StartsWith(files[1], "model") && EndsWith(files[1], ".safetensors");
    assert HasSafetensor(files[1..]);
    NeverIgnoresSafetensorsOrJson(files[0], true);
    NeverIgnoresSafetensorsOrJson(files[1], true);
    assert files[1..][1..] == [];
    assert Keep(files[1..], true) == [files[1]];
  }

  lemma ScheduleLegacyBesideModern()
    ensures FilesToDownload(["pytorch_model.bin", "model.safetensors"]) == ["model.safetensors"]
  {
    var files := ["pytorch_model.bin", "model.safetensors"];
    assert StartsWith(files[1], "model") && EndsWith(files[1], ".safetensors");
    assert HasSafetensor(files[1..]);
    assert EndsWith(files[0], ".bin");
    ShouldIgnoreFileIff(files[0], true);
    NeverIgnoresSafetensorsOrJson(files[1], true);
    assert files[1..][1..] == [];
    assert Keep(files[1..], true) == [files[1]];
    assert files[0][..5][0] == 'p';
    assert HasSafetensor(files);
    assert ShouldIgnoreFile(files[0], true);
    assert Keep(files, true) == Keep(files[1..], true);
  }

  /** A configuration file beside modern weights: both are requested, in
      listing order, and both created when their downloads complete. */
  lemma ConfigAndWeightsScenario(apiBaseUrl: string)
    ensures var run := Download("test/model", None, apiBaseUrl, true,
                                Response(true, Some(SiblingsBody(["config.json", "model.safetensors"]))),
                                (_, _) => Completed);
      && run.result == Ok(())
      && run.fetched == [BuildDownloadUrl("test/model", None, "config.json", apiBaseUrl),
                         BuildDownloadUrl("test/model", None, "model.safetensors", apiBaseUrl)]
      && "config.json" in run.written && "model.safetensors" in run.written
  {
    var fetch: (nat, string) -> FileOutcome := (_, _) => Completed;
    ServedListingRun("test/model", apiBaseUrl, ["config.json", "model.safetensors"], fetch);
    ScheduleConfigAndWeights();
    TwoFileRun("test/model", apiBaseUrl, "config.json", "model.safetensors", fetch);
  }

  /** Legacy weights beside modern weights: only the modern file is requested
      and nothing is created for the legacy one. */
  lemma LegacyWeightsSkippedScenario(apiBaseUrl: string, fetch: (nat, string) -> FileOutcome)
    ensures var run := Download("test/model", None, apiBaseUrl, true,
                                Response(true, Some(SiblingsBody(["pytorch_model.bin", "model.safetensors"]))),
                                fetch);
      && run.result == Ok(())
      && run.fetched == [BuildDownloadUrl("test/model", None, "model.safetensors", apiBaseUrl)]
      && "pytorch_model.bin" !in run.written
  {
    ServedListingRun("test/model", apiBaseUrl, ["pytorch_model.bin", "model.safetensors"], fetch);
    ScheduleLegacyBesideModern();
    assert "pytorch_model.bin" !in ["model.safetensors"];
  }

  /** One file is missing on the registry (non-success status) and its
      sibling is served: the run still succeeds, and only the served file
      is created. */
  lemma MissingFileScenario(apiBaseUrl: string)
    ensures var missing := BuildDownloadUrl("test/model", None, "config.json", apiBaseUrl);
      var run := Download("test/model", None, apiBaseUrl, true,
                          Response(true, Some(SiblingsBody(["config.json", "model.safetensors"]))),
                          (_, u) => if u == missing then StatusFailed else Completed);
      && run.result == Ok(())
      && "model.safetensors" in run.written && "config.json" !in run.written
  {
    var served := BuildDownloadUrl("test/model", None, "model.safetensors", apiBaseUrl);
    var missing := BuildDownloadUrl("test/model", None, "config.json", apiBaseUrl);
    var fetch: (nat, string) -> FileOutcome := (_, u) => if u == missing then StatusFailed else Completed;
    ServedListingRun("test/model", apiBaseUrl, ["config.json", "model.safetensors"], fetch);
    ScheduleConfigAndWeights();
    TwoFileRun("test/model", apiBaseUrl, "config.json", "model.safetensors", fetch);
    DownloadUrlNamesFile("test/model", None, "model.safetensors", "config.json", apiBaseUrl);
    assert fetch(0, missing) == StatusFailed && fetch(1, served) == Completed;
    assert "config.json" !in ["model.safetensors"];
  }

  /** A listing that fails ends the run before any file is requested. */
  lemma ListingFailureScenario(apiBaseUrl: string, body: Option<Json>, fetch: (nat, string) -> FileOutcome)
    ensures var run := Download("test/model", None, apiBaseUrl, true, Response(false, body), fetch);
      && run.result == Err(Failure("Failed to list files for test/model"))
      && run.fetched == [] && run.written == []
  {
    assert "Failed to list files for " + "test/model" == "Failed to list files for test/model";
  }

  /** A name listed twice is downloaded by two independent tasks: both
      request the same URL, they may end differently, and the file is
      created when either task creates it. */
  lemma DuplicateEntriesScenario(apiBaseUrl: string)
    ensures var url := BuildDownloadUrl("test/model", None, "a.json", apiBaseUrl);
      var run := Download("test/model", None, apiBaseUrl, true,
                          Response(true, Some(SiblingsBody(["a.json", "a.json"]))),
                          (i, _) => if i == 0 then SendFailed else Completed);
      && run.result == Ok(())
      && run.fetched == [url, url]
      && run.tasks == [Err(Transport), Ok(())]
      && "a.json" in run.written
  {
    var fetch: (nat, string) -> FileOutcome := (i, _) => if i == 0 then SendFailed else Completed;
    ServedListingRun("test/model", apiBaseUrl, ["a.json", "a.json"], fetch);
    ScheduleDuplicate();
    TwoFileRun("test/model", apiBaseUrl, "a.json", "a.json", fetch);
  }

  lemma ScheduleDuplicate()
    ensures FilesToDownload(["a.json", "a.json"]) == ["a.json", "a.json"]
  {
    var files := ["a.json", "a.json"];
    assert files[0][..5][0] == 'a';
    assert !HasSafetensor(files[1..][1..]);
    assert !HasSafetensor(files);
  }
}
