/**
 * The ingestion agent: loads every file named in a "user_input" message,
 * skipping those that fail, chunks the documents and sends the chunks with
 * their metadata to the retrieval agent.
 */
module IngestionAgent {
  import opened Wrappers
  import opened Values
  import opened McpMessage
  import MessageBus
  import opened Agents
  import Text

  const AgentName: string := "IngestionAgent"

  // ---------------------------------------------------------------------
  // load_file
  // ---------------------------------------------------------------------

  /** The index of the last `c` in `s`, or -1 (Python's `str.rfind`). */
  function LastIndexOf(s: string, c: char): (r: int)
    ensures -1 <= r < |s|
    ensures r >= 0 ==> s[r] == c
    ensures forall k :: r < k < |s| ==> s[k] != c
  {
    if s == [] then -1
    else if s[|s| - 1] == c then |s| - 1
    else LastIndexOf(s[..|s| - 1], c)
  }

  /** Whether some character of `s[lo..hi]` is not a dot. */
  function NonDotIn(s: string, lo: nat, hi: nat): bool
    requires lo <= hi <= |s|
    decreases hi - lo
  {
    lo < hi && (s[lo] != '.' || NonDotIn(s, lo + 1, hi))
  }

  /**
   * `os.path.splitext(path)[1]` on POSIX: the part from the last dot of the
   * last path component, unless that component is only dots up to there
   * (a leading-dot name such as ".bashrc" has no extension).
   */
  function Extension(path: string): (ext: string)
    ensures ext == "" || (|ext| <= |path| && ext == path[|path| - |ext|..] && ext[0] == '.')
    ensures forall k :: 0 <= k < |ext| ==> ext[k] != '/'
    ensures forall k :: 1 <= k < |ext| ==> ext[k] != '.'
  {
    var sep := LastIndexOf(path, '/');
    var dot := LastIndexOf(path, '.');
    if dot > sep && NonDotIn(path, sep + 1, dot) then path[dot..] else ""
  }

  /** Some character of `s[lo..hi]` is not a dot exactly when `NonDotIn` says so. */
  lemma {:induction false} NonDotInExists(s: string, lo: nat, hi: nat)
    requires lo <= hi <= |s|
    ensures NonDotIn(s, lo, hi) <==> exists k :: lo <= k < hi && s[k] != '.'
    decreases hi - lo
  {
    if lo < hi {
      NonDotInExists(s, lo + 1, hi);
      if s[lo] == '.' && exists k :: lo <= k < hi && s[k] != '.' {
        var k :| lo <= k < hi && s[k] != '.';
        assert lo + 1 <= k;
      }
    }
  }

  /** No `c` from index `k` on puts the last `c` before `k`. */
  lemma LastIndexOfBefore(s: string, c: char, k: nat)
    requires forall j :: k <= j < |s| ==> s[j] != c
    ensures LastIndexOf(s, c) < k
  {
  }

  /** The last component of `stem` holds a character that is not a dot. */
  predicate NamedStem(stem: string) {
    exists k :: 0 <= k < |stem| && stem[k] != '.' && forall j :: k <= j < |stem| ==> stem[j] != '/'
  }

  /** A dot followed by neither dots nor slashes: the shape of an extension. */
  predicate ExtensionShaped(e: string) {
    e != "" && e[0] == '.' && forall k :: 1 <= k < |e| ==> e[k] != '.' && e[k] != '/'
  }

  /**
   * Splitting a path at its last dot after the last slash: `stem + e` has
   * extension `e` when the stem's last component is not only dots
   * (`"dir/report.pdf"` gives `".pdf"`), and none otherwise (`".pdf"`,
   * `"dir/..pdf"`).
   */
  lemma ExtensionSplit(stem: string, e: string)
    requires ExtensionShaped(e)
    ensures Extension(stem + e) == if NamedStem(stem) then e else ""
  {
    var path := stem + e;
    var sep := LastIndexOf(path, '/');
    var dot := LastIndexOf(path, '.');
    assert path[|stem|] == '.';
    assert dot == |stem|;
    assert sep < |stem|;
    NonDotInExists(path, sep + 1, dot);
    if NamedStem(stem) {
      var k :| 0 <= k < |stem| && stem[k] != '.' && forall j :: k <= j < |stem| ==> stem[j] != '/';
      assert path[k] == stem[k];
      forall j | k <= j < |path|
        ensures path[j] != '/'
      {
        if j < |stem| {
          assert path[j] == stem[j];
        } else {
          assert path[j] == e[j - |stem|];
        }
      }
      LastIndexOfBefore(path, '/', k);
      assert sep + 1 <= k < dot && path[k] != '.';
      assert path[dot..] == e;
    } else {
      if exists k :: sep + 1 <= k < dot && path[k] != '.' {
        var k :| sep + 1 <= k < dot && path[k] != '.';
        assert stem[k] != '.';
        forall j | k <= j < |stem|
          ensures stem[j] != '/'
        {
          assert path[j] == stem[j];
        }
        assert NamedStem(stem);
      }
    }
  }

  lemma {:induction false} LastIndexOfLower(s: string, c: char)
    requires !('A' <= c <= 'Z') && !('a' <= c <= 'z')
    ensures LastIndexOf(Text.Lower(s), c) == LastIndexOf(s, c)
  {
    if s != [] {
      var init := s[..|s| - 1];
      assert Text.Lower(s)[..|s| - 1] == Text.Lower(init);
      LastIndexOfLower(init, c);
    }
  }

  lemma {:induction false} NonDotInLower(s: string, lo: nat, hi: nat)
    requires lo <= hi <= |s|
    ensures NonDotIn(Text.Lower(s), lo, hi) == NonDotIn(s, lo, hi)
    decreases hi - lo
  {
    if lo < hi {
      NonDotInLower(s, lo + 1, hi);
    }
  }

  /** Taking the extension commutes with lower-casing the path. */
  lemma ExtensionLower(path: string)
    ensures Extension(Text.Lower(path)) == Text.Lower(Extension(path))
  {
    var low := Text.Lower(path);
    LastIndexOfLower(path, '/');
    LastIndexOfLower(path, '.');
    var sep := LastIndexOf(path, '/');
    var dot := LastIndexOf(path, '.');
    if dot > sep {
      NonDotInLower(path, sep + 1, dot);
    }
    if dot > sep && NonDotIn(path, sep + 1, dot) {
      Text.LowerSlice(path, dot);
      assert Extension(low) == low[dot..];
      assert Extension(path) == path[dot..];
    } else {
      assert Extension(low) == "";
      assert Extension(path) == "";
      assert Text.Lower("") == "";
    }
  }

  /** `load_file`'s choice of loader, by lower-cased extension. */
  function Classify(path: string): (r: Option<FileKind>)
    ensures r.Some? <==> Text.Lower(Extension(path)) in {".pdf", ".csv", ".txt", ".md", ".pptx", ".docx"}
  {
    match Text.Lower(Extension(path))
    case ".pdf" => Some(Pdf)
    case ".csv" => Some(Csv)
    case ".txt" => Some(PlainText)
    case ".md" => Some(PlainText)
    case ".pptx" => Some(PowerPoint)
    case ".docx" => Some(Word)
    case _ => None
  }

  /** Upper- and lower-case spellings of a path are classified alike. */
  lemma ClassifyIgnoresCase(p: string, q: string)
    requires Text.Lower(p) == Text.Lower(q)
    ensures Classify(p) == Classify(q)
  {
    ExtensionLower(p);
    ExtensionLower(q);
    LowerIdempotent(Extension(p));
    LowerIdempotent(Extension(q));
  }

  lemma LowerIdempotent(s: string)
    ensures Text.Lower(Text.Lower(s)) == Text.Lower(s)
  {
  }

  /**
   * `load_file(path)`: an unsupported extension raises; a CSV file's rows
   * are merged into one document whose only metadata is its source path;
   * any other kind is handed to its loader as it is.
   */
  function LoadFile(path: string, env: Env): (r: Result<seq<Document>, string>)
    ensures Classify(path).None? ==> r == Failure("Unsupported file type: " + path)
    ensures Classify(path) == Some(Csv) ==>
      match env.load(Csv, path)
      case Failure(e) => r == Failure(e)
      case Success(rows) =>
        r == Success([Document(Text.Join("\n\n", Texts(rows)), map["source" := Str(path)])])
    ensures Classify(path).Some? && Classify(path) != Some(Csv) ==>
      r == env.load(Classify(path).value, path)
  {
    match Classify(path)
    case None => Failure("Unsupported file type: " + path)
    case Some(kind) =>
      if kind == Csv then
        match env.load(Csv, path)
        case Failure(e) => Failure(e)
        case Success(rows) =>
          Success([Document(Text.Join("\n\n", Texts(rows)), map["source" := Str(path)])])
      else env.load(kind, path)
  }

  /** A CSV file that loads yields exactly one document, tagged with its path. */
  lemma CsvSingleDocument(path: string, env: Env)
    requires Classify(path) == Some(Csv) && LoadFile(path, env).Success?
    ensures |LoadFile(path, env).value| == 1
    ensures LoadFile(path, env).value[0].metadata == map["source" := Str(path)]
  {
  }

  /** `load_file` on one element of `file_paths`; a non-string raises too. */
  function LoadPath(v: Value, env: Env): (r: Result<seq<Document>, string>)
    ensures v.Str? ==> r == LoadFile(v.s, env)
    ensures !v.Str? ==> r.Failure?
  {
    if v.Str? then LoadFile(v.s, env) else Failure("expected str, bytes or os.PathLike object")
  }

  /**
   * The documents gathered by calling `load` on each path in turn: those of
   * the paths that load, in order; a path that fails contributes nothing.
   */
  function Gathered(paths: seq<Value>, load: Value -> Result<seq<Document>, string>): seq<Document>
  {
    if paths == [] then []
    else
      Gathered(paths[..|paths| - 1], load)
        + (match load(paths[|paths| - 1]) case Success(d) => d case Failure(_) => [])
  }

  /** Gathering over a concatenation of path lists concatenates the results. */
  lemma {:induction false} GatheredAppend(p1: seq<Value>, p2: seq<Value>,
                                          load: Value -> Result<seq<Document>, string>)
    ensures Gathered(p1 + p2, load) == Gathered(p1, load) + Gathered(p2, load)
  {
    if p2 == [] {
      assert p1 + p2 == p1;
    } else {
      var init := p2[..|p2| - 1];
      assert (p1 + p2)[..|p1 + p2| - 1] == p1 + init;
      GatheredAppend(p1, init, load);
    }
  }

  /** Nothing is gathered exactly when every path fails or loads no document. */
  lemma {:induction false} GatheredEmpty(paths: seq<Value>, load: Value -> Result<seq<Document>, string>)
    ensures Gathered(paths, load) == [] <==>
      forall i :: 0 <= i < |paths| ==> load(paths[i]).Failure? || load(paths[i]).value == []
  {
    if paths != [] {
      var init := paths[..|paths| - 1];
      GatheredEmpty(init, load);
      assert forall i :: 0 <= i < |init| ==> init[i] == paths[i];
    }
  }

  /** The loader the handler applies to each element of `file_paths`. */
  function PathLoader(env: Env): Value -> Result<seq<Document>, string>
  {
    v => LoadPath(v, env)
  }

  /** `all_docs` after the handler's loop over `paths`. */
  function LoadedDocs(paths: seq<Value>, env: Env): seq<Document>
  {
    Gathered(paths, PathLoader(env))
  }

  // ---------------------------------------------------------------------
  // ingestion_agent
  // ---------------------------------------------------------------------

  /**
   * The paths the handler loops over: `payload.get("file_paths", [])`, a
   * single string standing for a one-element list.  None when the value
   * cannot be iterated (the `for` loop raises).
   */
  function FilePaths(payload: Payload): (r: Option<seq<Value>>)
    ensures "file_paths" !in payload ==> r == Some([])
    ensures "file_paths" in payload && payload["file_paths"].Str? ==> r == Some([payload["file_paths"]])
    ensures "file_paths" in payload && payload["file_paths"].List? ==> r == Some(payload["file_paths"].items)
  {
    var paths := Get(payload, "file_paths", List([]));
    if paths.Str? then Some([paths]) else Iterate(paths)
  }

  function ChunkValues(chunks: seq<Document>): (r: seq<Value>)
    ensures |r| == |chunks| && forall i :: 0 <= i < |chunks| ==> r[i] == Str(chunks[i].text)
  {
    seq(|chunks|, i requires 0 <= i < |chunks| => Str(chunks[i].text))
  }

  function MetadataValues(chunks: seq<Document>): (r: seq<Value>)
    ensures |r| == |chunks| && forall i :: 0 <= i < |chunks| ==> r[i] == Dict(chunks[i].metadata)
  {
    seq(|chunks|, i requires 0 <= i < |chunks| => Dict(chunks[i].metadata))
  }

  /** The "documents_parsed" payload for `chunks`. */
  function ParsedPayload(payload: Payload, chunks: seq<Document>): Payload
  {
    map[
      "query" := Get(payload, "query", Str("")),
      "chunks" := List(ChunkValues(chunks)),
      "metadata" := List(MetadataValues(chunks))]
  }

  /**
   * What `ingestion_agent(message)` does.  It halts when no document
   * loads or chunking yields nothing; otherwise it sends one
   * "documents_parsed" message to the retrieval agent whose chunks and
   * metadata lists are index-aligned with the chunker's output.
   */
  function IngestionStep(message: Message, env: Env): (r: Step)
    ensures r.Raise? <==> FilePaths(message.payload).None?
    ensures r.Halt? <==> (FilePaths(message.payload).Some?
      && (LoadedDocs(FilePaths(message.payload).value, env) == []
          || env.split(LoadedDocs(FilePaths(message.payload).value, env)) == []))
    ensures r.Send? ==> r.receiver == "RetrievalAgent" && r.msgType == "documents_parsed"
    ensures r.Send? ==>
      var chunks := env.split(LoadedDocs(FilePaths(message.payload).value, env));
      && r.payload.Keys == {"query", "chunks", "metadata"}
      && r.payload["query"] == Get(message.payload, "query", Str(""))
      && r.payload["chunks"].List? && r.payload["metadata"].List?
      && |r.payload["chunks"].items| == |r.payload["metadata"].items| == |chunks| > 0
      && (forall i :: 0 <= i < |chunks| ==>
            r.payload["chunks"].items[i] == Str(chunks[i].text)
            && r.payload["metadata"].items[i] == Dict(chunks[i].metadata))
  {
    match FilePaths(message.payload)
    case None => Raise("object is not iterable")
    case Some(paths) =>
      var allDocs := LoadedDocs(paths, env);
      if allDocs == [] then Halt
      else
        var chunks := env.split(allDocs);
        if chunks == [] then Halt
        else Send("RetrievalAgent", "documents_parsed", ParsedPayload(message.payload, chunks))
  }

  /** `ingestion_agent(message)`, dispatching on `bus`. */
  method Handle(bus: MessageBus.Bus, message: Message, env: Env) returns (outcome: Outcome)
    requires bus.Valid()
    modifies bus
    ensures bus.Valid()
    ensures outcome == OutcomeOf(IngestionStep(message, env))
    ensures bus.history == old(bus.history)
      + Emitted(IngestionStep(message, env), AgentName, message, env, |old(bus.history)|)
    ensures bus.queue == old(bus.queue)
      + Emitted(IngestionStep(message, env), AgentName, message, env, |old(bus.history)|)
  {
    var payload := message.payload;
    var filePaths := FilePaths(payload);
    if filePaths.None? {
      return Raised("object is not iterable");
    }
    var paths := filePaths.value;

    var allDocs: seq<Document> := [];
    var i := 0;
    while i < |paths|
      invariant 0 <= i <= |paths|
      invariant allDocs == LoadedDocs(paths[..i], env)
    {
      assert paths[..i + 1][..i] == paths[..i];
      var docs := LoadPath(paths[i], env);
      if docs.Success? {
        allDocs := allDocs + docs.value;
      }
      i := i + 1;
    }
    assert paths[..i] == paths;

    if allDocs == [] {
      return Returned;
    }
    var chunks := env.split(allDocs);
    if chunks == [] {
      return Returned;
    }
    var resultPayload := ParsedPayload(payload, chunks);
    var n := |bus.history|;
    var _ := bus.Dispatch(AgentName, "RetrievalAgent", "documents_parsed", resultPayload,
                          Some(message.traceId), env.uuid(n), env.clock(n));
    outcome := Returned;
  }
}
