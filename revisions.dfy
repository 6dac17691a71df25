/** `model revisions`: list the branch names of a repository from its
    `refs` endpoint. */
module ModelRevisions {
  import opened Wrappers
  import opened Fmt
  import opened Json
  import ModelDownload

  /** `{base}/api/models/{repo}/refs` */
  function BuildRevisionsUrl(repository: string, apiBaseUrl: string): (url: string)
    ensures url == apiBaseUrl + "/api/models/" + repository + "/refs"
  {
    FormatInfixSuffix(apiBaseUrl, "/api/models/", repository, "/refs");
    Format([Slot, Lit("/api/models/"), Slot, Lit("/refs")], [apiBaseUrl, repository])
  }

  /** The refs URL is the revision-less listing URL followed by `/refs`. */
  lemma RevisionsUrlExtendsListingUrl(repository: string, apiBaseUrl: string)
    ensures BuildRevisionsUrl(repository, apiBaseUrl)
         == ModelDownload.BuildFileListUrl(repository, None, apiBaseUrl) + "/refs"
  {
  }

  lemma RevisionsUrlExample()
    ensures BuildRevisionsUrl("TheBloke/Llama-2-7B-Chat-GPTQ", "https://huggingface.co")
         == "https://huggingface.co/api/models/TheBloke/Llama-2-7B-Chat-GPTQ/refs"
  {
    ModelDownload.FileListUrlNoRevisionExample();
    RefsUrlSpelling();
  }

  // Literal spelling only: keeps the example proof above cheap.
  lemma RefsUrlSpelling()
    ensures "https://huggingface.co/api/models/TheBloke/Llama-2-7B-Chat-GPTQ" + "/refs"
         == "https://huggingface.co/api/models/TheBloke/Llama-2-7B-Chat-GPTQ/refs"
  {
  }

  lemma RevisionsUrlCustomBaseExample()
    ensures BuildRevisionsUrl("test/model", "http://localhost:8080")
         == "http://localhost:8080/api/models/test/model/refs"
  {
    LocalRefsUrlSpelling();
  }

  // Literal spelling only: keeps the example proof above cheap.
  lemma LocalRefsUrlSpelling()
    ensures "http://localhost:8080" + "/api/models/" + "test/model" + "/refs"
         == "http://localhost:8080/api/models/test/model/refs"
  {
  }

  /** The `name` strings of the `branches` array, in array order, skipping
      elements without a string `name`; none when there is no such array. */
  function BranchNames(parsed: Json): (names: seq<string>)
    ensures ArrayField(parsed, "branches").None? ==> names == []
    ensures ArrayField(parsed, "branches").Some? ==> |names| <= |ArrayField(parsed, "branches").value|
  {
    match ArrayField(parsed, "branches")
    case Some(branches) => StringsAt(branches, "name")
    case None => []
  }

  /** The test helper `parse_branches_from_json`, on the parsed document
      (`None` when the text is not JSON): it pushes each branch name in turn. */
  method ParseBranchesFromJson(parsed: Option<Json>) returns (r: Result<seq<string>>)
    ensures parsed.None? ==> r == Err(Parse)
    ensures parsed.Some? ==> r == Ok(BranchNames(parsed.value))
  {
    if parsed.None? {
      return Err(Parse);
    }
    var branches: seq<string> := [];
    var branchArray := ArrayField(parsed.value, "branches");
    if branchArray.Some? {
      var items := branchArray.value;
      for i := 0 to |items|
        invariant branches == StringsAt(items[..i], "name")
      {
        var name := StrField(items[i], "name");
        if name.Some? {
          branches := branches + [name.value];
        }
        assert items[..i + 1] == items[..i] + [items[i]];
        StringsAtAppend(items[..i], [items[i]], "name");
        StringsAtSingle(items[i], "name");
      }
      assert items[..|items|] == items;
    }
    return Ok(branches);
  }

  const NoBranchesMessage: string := "No branches found."

  /** The lines `extract_branch_names` prints: a line per branch name when
      there is a `branches` array (none for an empty one), otherwise the
      one line "No branches found.". */
  function BranchLines(parsed: Json): (lines: seq<string>)
    ensures lines == [] ==> ArrayField(parsed, "branches").Some? && BranchNames(parsed) == []
    ensures ArrayField(parsed, "branches").None? ==> |lines| == 1
  {
    if ArrayField(parsed, "branches").Some? then BranchNames(parsed) else [NoBranchesMessage]
  }

  /** `extract_branch_names`: prints each branch name and always succeeds. */
  method ExtractBranchNames(parsed: Json) returns (printed: seq<string>, r: Result<()>)
    ensures r == Ok(())
    ensures printed == BranchLines(parsed)
  {
    var branchArray := ArrayField(parsed, "branches");
    if branchArray.Some? {
      var items := branchArray.value;
      printed := [];
      for i := 0 to |items|
        invariant printed == StringsAt(items[..i], "name")
      {
        var name := StrField(items[i], "name");
        if name.Some? {
          printed := printed + [name.value];
        }
        assert items[..i + 1] == items[..i] + [items[i]];
        StringsAtAppend(items[..i], [items[i]], "name");
        StringsAtSingle(items[i], "name");
      }
      assert items[..|items|] == items;
    } else {
      printed := [NoBranchesMessage];
    }
    return printed, Ok(());
  }

  /** `revisions`: one GET to the refs URL, then the branch names printed. */
  method Revisions(repository: string, apiBaseUrl: string, reply: Reply)
    returns (url: string, printed: seq<string>, r: Result<()>)
    ensures url == BuildRevisionsUrl(repository, apiBaseUrl)
    ensures r.Ok? <==> reply.Response? && reply.success && reply.body.Some?
    ensures r.Ok? ==> printed == BranchLines(reply.body.value)
    ensures reply.Unreachable? ==> r == Err(Transport)
    ensures reply.Response? && !reply.success ==>
      r == Err(Failure("Failed to fetch refs for '" + repository + "'"))
    ensures reply.Response? && reply.success && reply.body.None? ==> r == Err(Parse)
  {
    url := BuildRevisionsUrl(repository, apiBaseUrl);
    printed := [];
    match reply
    case Unreachable =>
      r := Err(Transport);
    case Response(success, body) =>
      if !success {
        r := Err(Failure("Failed to fetch refs for '" + repository + "'"));
      } else if body.None? {
        r := Err(Parse);
      } else {
        printed, r := ExtractBranchNames(body.value);
      }
  }

  /** Branch names come out in array order, one per named element, and an
      element contributes exactly when it has a string `name`. */
  lemma BranchNamesSpec(branches: seq<Json>, s: string)
    ensures BranchNames(JObj(map["branches" := JArr(branches)])) == StringsAt(branches, "name")
    ensures s in BranchNames(JObj(map["branches" := JArr(branches)])) <==>
      exists i :: 0 <= i < |branches| && StrField(branches[i], "name") == Some(s)
    ensures (forall i :: 0 <= i < |branches| ==> StrField(branches[i], "name").Some?) ==>
      |BranchNames(JObj(map["branches" := JArr(branches)]))| == |branches| &&
      forall i :: 0 <= i < |branches| ==>
        BranchNames(JObj(map["branches" := JArr(branches)]))[i] == StrField(branches[i], "name").value
  {
    var parsed := JObj(map["branches" := JArr(branches)]);
    assert ArrayField(parsed, "branches") == Some(branches);
    StringsAtMembers(branches, "name", s);
    if forall i :: 0 <= i < |branches| ==> StrField(branches[i], "name").Some? {
      StringsAtAllPresent(branches, "name");
    }
  }

  /** An element without a string `name` is skipped: removing it changes
      nothing. */
  lemma UnnamedBranchSkipped(before: seq<Json>, unnamed: Json, after: seq<Json>)
    requires StrField(unnamed, "name").None?
    ensures BranchNames(JObj(map["branches" := JArr(before + [unnamed] + after)]))
         == BranchNames(JObj(map["branches" := JArr(before + after)]))
  {
    assert ArrayField(JObj(map["branches" := JArr(before + [unnamed] + after)]), "branches")
        == Some(before + [unnamed] + after);
    assert ArrayField(JObj(map["branches" := JArr(before + after)]), "branches") == Some(before + after);
    StringsAtAppend(before + [unnamed], after, "name");
    StringsAtAppend(before, [unnamed], "name");
    StringsAtSingle(unnamed, "name");
    StringsAtAppend(before, after, "name");
  }

  /** A document without a `branches` array has no branch names, and
      `extract_branch_names` then prints only "No branches found."; an empty
      array prints nothing. */
  lemma MissingOrEmptyBranches(parsed: Json)
    ensures ArrayField(parsed, "branches").None? ==>
      BranchNames(parsed) == [] && BranchLines(parsed) == [NoBranchesMessage]
    ensures ArrayField(parsed, "branches") == Some([]) ==>
      BranchNames(parsed) == [] && BranchLines(parsed) == []
  {
  }

  // The in-file unit tests' expected values.

  lemma ThreeBranchesExample()
    ensures BranchNames(JObj(map["branches" := JArr([
              JObj(map["name" := JStr("main")]),
              JObj(map["name" := JStr("gptq-4bit-64g-actorder_True")]),
              JObj(map["name" := JStr("develop")])])]))
         == ["main", "gptq-4bit-64g-actorder_True", "develop"]
  {
    var branches := [JObj(map["name" := JStr("main")]),
                     JObj(map["name" := JStr("gptq-4bit-64g-actorder_True")]),
                     JObj(map["name" := JStr("develop")])];
    assert StrField(branches[0], "name") == Some("main");
    assert StrField(branches[1], "name") == Some("gptq-4bit-64g-actorder_True");
    assert StrField(branches[2], "name") == Some("develop");
    StringsAtAllPresent(branches, "name");
    BranchNamesSpec(branches, "main");
  }

  lemma NoBranchesFieldExample()
    ensures BranchNames(JObj(map["other_field" := JStr("value")])) == []
    ensures BranchLines(JObj(map["other_field" := JStr("value")])) == [NoBranchesMessage]
  {
    assert "branches" != "other_field";
  }

  lemma UnnamedBranchExample()
    ensures BranchNames(JObj(map["branches" := JArr([JObj(map["invalid" := JStr("no name field")])])])) == []
  {
    var x := JObj(map["invalid" := JStr("no name field")]);
    assert "name" != "invalid";
    StringsAtSingle(x, "name");
  }
}
