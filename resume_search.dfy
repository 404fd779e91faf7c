/**
 * The résumé search page (ResumeSearch.tsx): the list of uploaded files, the
 * search that turns them into (mock) candidate results, and the page's loading
 * and error banner. The parser and `crypto.randomUUID` are outside the model:
 * the parse's outcome and the generated ids are parameters.
 */
module ResumeSearch {
  import SeqFacts
  import opened Wrappers
  import opened ResumeFiles

  const NoFiles := "Please upload at least one resume"
  const AnalyzeFailed := "Failed to analyze resumes. Please try again."

  datatype ResumeSearchResult = ResumeSearchResult(id: string, name: string, email: string, skills: seq<string>,
                                                   experience: seq<string>, education: seq<string>,
                                                   matchScore: int, highlights: seq<string>)

  /** The fixed candidate every file currently maps to, under a fresh id. */
  function MockResult(id: string): ResumeSearchResult {
    ResumeSearchResult(id, "John Doe", "john@example.com", ["React", "TypeScript", "Node.js"],
                       ["Senior Software Engineer", "5 years"], ["BS Computer Science"], 85,
                       ["Strong frontend experience", "Team leadership"])
  }

  /** The dropped files whose MIME type is allowed, in drop order. */
  function ValidFiles(dropped: seq<UploadFile>): (r: seq<UploadFile>)
    ensures forall f :: f in r <==> f in dropped && Allowed(f)
    ensures |r| <= |dropped|
  {
    if dropped == [] then []
    else (if Allowed(dropped[0]) then [dropped[0]] else []) + ValidFiles(dropped[1..])
  }

  /** The banner for a rejected file. */
  function InvalidType(f: UploadFile): string {
    "Invalid file type: " + f.name + ". Only PDF and DOC files are allowed."
  }

  /** Each allowed file is kept as often as it was dropped. */
  lemma {:induction false} ValidFilesCount(a: seq<UploadFile>)
    ensures forall f :: multiset(ValidFiles(a))[f] == if Allowed(f) then multiset(a)[f] else 0
  {
    if a != [] {
      ValidFilesCount(a[1..]);
      assert a == [a[0]] + a[1..];
    }
  }

  /** Filtering keeps order: two drops one after the other keep what one drop of both would. */
  lemma {:induction false} ValidFilesConcat(a: seq<UploadFile>, b: seq<UploadFile>)
    ensures ValidFiles(a + b) == ValidFiles(a) + ValidFiles(b)
  {
    if a == [] {
      assert a + b == b;
    } else {
      var head := if Allowed(a[0]) then [a[0]] else [];
      assert (a + b)[0] == a[0] && (a + b)[1..] == a[1..] + b;
      calc {
        ValidFiles(a + b);
        head + ValidFiles(a[1..] + b);
        { ValidFilesConcat(a[1..], b); }
        head + (ValidFiles(a[1..]) + ValidFiles(b));
        (head + ValidFiles(a[1..])) + ValidFiles(b);
      }
    }
  }

  /** The valid files from position `i` on: the file at `i` when it is valid, then those after it. */
  lemma ValidFilesStep(d: seq<UploadFile>, i: int)
    requires 0 <= i < |d|
    ensures ValidFiles(d[i..]) == (if Allowed(d[i]) then [d[i]] else []) + ValidFiles(d[i + 1..])
  {
    assert d[i..][0] == d[i] && d[i..][1..] == d[i + 1..];
  }

  /** One more file looked at: a valid one moves from the rest onto the files kept so far. */
  lemma ValidPrefixStep(d: seq<UploadFile>, i: int, valid: seq<UploadFile>)
    requires 0 <= i < |d|
    ensures Allowed(d[i]) ==> valid + ValidFiles(d[i..]) == (valid + [d[i]]) + ValidFiles(d[i + 1..])
    ensures !Allowed(d[i]) ==> valid + ValidFiles(d[i..]) == valid + ValidFiles(d[i + 1..])
  {
    ValidFilesStep(d, i);
    SeqFacts.AppendAssoc(valid, [d[i]], ValidFiles(d[i + 1..]));
  }

  /** `prev.filter((_, i) => i !== index)`: the list without position `index`; any other index leaves it whole. */
  function RemoveIndex<T>(xs: seq<T>, index: int): (r: seq<T>)
    ensures 0 <= index < |xs| ==>
              |r| == |xs| - 1
              && (forall i :: 0 <= i < index ==> r[i] == xs[i])
              && (forall i :: index <= i < |r| ==> r[i] == xs[i + 1])
    ensures !(0 <= index < |xs|) ==> r == xs
  {
    if 0 <= index < |xs| then xs[..index] + xs[index + 1..] else xs
  }

  /** Removing the file just appended at the end restores the list. */
  lemma RemoveLastAdded<T>(xs: seq<T>, x: T)
    ensures RemoveIndex(xs + [x], |xs|) == xs
  {
    assert (xs + [x])[..|xs|] == xs;
  }

  class Page {
    var files: seq<UploadFile>
    var loading: bool
    var error: Option<string>
    var results: seq<ResumeSearchResult>

    constructor()
      ensures files == [] && !loading && error == None && results == []
    {
      files := [];
      loading := false;
      error := None;
      results := [];
    }

    /** `onDrop`: the allowed files are appended; the banner ends up clear, even after a rejected file. */
    method Drop(dropped: seq<UploadFile>)
      modifies this
      ensures files == old(files) + ValidFiles(dropped)
      ensures error == None
      ensures loading == old(loading) && results == old(results)
    {
      var valid: seq<UploadFile> := [];
      var i := 0;
      while i < |dropped|
        invariant 0 <= i <= |dropped|
        invariant ValidFiles(dropped) == valid + ValidFiles(dropped[i..])
        modifies this`error
      {
        var f := dropped[i];
        ValidPrefixStep(dropped, i, valid);
        if Allowed(f) {
          valid := valid + [f];
        } else {
          error := Some(InvalidType(f));
        }
        i := i + 1;
      }
      assert dropped[i..] == [];
      files := files + valid;
      error := None;
    }

    /** `removeFile(index)` */
    method RemoveFile(index: int)
      modifies this
      ensures files == RemoveIndex(old(files), index)
      ensures loading == old(loading) && error == old(error) && results == old(results)
    {
      files := RemoveIndex(files, index);
    }

    /** The start of `handleSearch`: no files is an error and nothing else changes; otherwise the search starts. */
    method BeginSearch() returns (proceed: bool)
      modifies this
      ensures proceed <==> old(files) != []
      ensures !proceed ==> error == Some(NoFiles) && loading == old(loading)
      ensures proceed ==> loading && error == None
      ensures files == old(files) && results == old(results)
    {
      if files == [] {
        error := Some(NoFiles);
        return false;
      }
      loading := true;
      error := None;
      return true;
    }

    /**
     * The end of `handleSearch`: after a successful parse one result per file, the
     * i-th under `ids[i]`; after a failed one the error banner. Loading ends either way.
     */
    method EndSearch(parsed: bool, ids: seq<string>)
      requires |ids| == |files|
      modifies this
      ensures files == old(files)
      ensures parsed ==> |results| == |files| && (forall i :: 0 <= i < |files| ==> results[i] == MockResult(ids[i]))
      ensures parsed ==> error == old(error)
      ensures !parsed ==> error == Some(AnalyzeFailed) && results == old(results)
      ensures !loading
    {
      if parsed {
        var r: seq<ResumeSearchResult> := [];
        for i := 0 to |files|
          invariant |r| == i
          invariant forall k :: 0 <= k < i ==> r[k] == MockResult(ids[k])
        {
          r := r + [MockResult(ids[i])];
        }
        results := r;
      } else {
        error := Some(AnalyzeFailed);
      }
      loading := false;
    }
  }
}
