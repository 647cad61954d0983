/**
 * A fetched problem: statement sections, sample tests and difficulty. The
 * network requests and HTML selection are not modelled; `Fetch` receives
 * their results.
 */
module Problem {
  import opened Config
  import opened Level

  datatype TestCase = TestCase(input: string, output: string)

  datatype ProblemError = Http(reason: string) | Parse(message: string)

  /** The text of a fetch failure, as the error type's `Display` writes it. */
  function ProblemErrorMessage(e: ProblemError): string {
    match e
    case Http(reason) => "HTTP request failed: " + reason
    case Parse(message) => "HTML parse error: " + message
  }

  /**
   * The i-th sample input with the i-th sample output, as far as the shorter
   * of the two lists reaches.
   */
  function Pairs(inputs: seq<string>, outputs: seq<string>): (r: seq<TestCase>)
    ensures |r| == if |inputs| <= |outputs| then |inputs| else |outputs|
    ensures forall i :: 0 <= i < |r| ==> r[i] == TestCase(inputs[i], outputs[i])
  {
    if inputs == [] || outputs == [] then []
    else [TestCase(inputs[0], outputs[0])] + Pairs(inputs[1..], outputs[1..])
  }

  class Problem {
    var id: nat
    var title: string
    var description: string
    var inputDesc: string
    var outputDesc: string
    var testCases: seq<TestCase>
    var level: Level

    /** `Problem::new`: the given fields and no samples yet. */
    constructor (id: nat, title: string, description: string, inputDesc: string,
                 outputDesc: string, level: Level)
      ensures this.id == id && this.title == title && this.description == description
      ensures this.inputDesc == inputDesc && this.outputDesc == outputDesc
      ensures this.level == level && testCases == []
    {
      this.id := id;
      this.title := title;
      this.description := description;
      this.inputDesc := inputDesc;
      this.outputDesc := outputDesc;
      this.testCases := [];
      this.level := level;
    }

    /** `add_test_case`: appends one sample; nothing else changes. */
    method AddTestCase(input: string, output: string)
      modifies this`testCases
      ensures testCases == old(testCases) + [TestCase(input, output)]
    {
      testCases := testCases + [TestCase(input, output)];
    }
  }

  /** The metadata request's answer: Korean title and numeric level (a `u8`). */
  datatype ApiProblem = ApiProblem(titleKo: string, level: nat)

  /**
   * What the page's selectors matched, in document order: the paragraphs of
   * the description, input and output sections, and the sample blocks.
   */
  datatype Page = Page(
    descriptions: seq<string>,
    inputDescs: seq<string>,
    outputDescs: seq<string>,
    sampleInputs: seq<string>,
    sampleOutputs: seq<string>)

  /**
   * `Problem::fetch` after the two requests: a request failure is an `Http`
   * error; the first paragraph of each section is taken, a missing section
   * is a `Parse` error (description, then input, then output); the samples
   * are paired in order.
   */
  method Fetch(problemId: nat, meta: Result<ApiProblem, string>, page: Result<Page, string>)
    returns (r: Result<Problem, ProblemError>)
    requires meta.Ok? ==> meta.value.level < 256
    ensures meta.Err? ==> r == Err(Http(meta.error))
    ensures meta.Ok? && page.Err? ==> r == Err(Http(page.error))
    ensures meta.Ok? && page.Ok? ==> var p := page.value;
      && (p.descriptions == [] ==> r == Err(Parse("Missing problem description")))
      && (p.descriptions != [] && p.inputDescs == [] ==> r == Err(Parse("Missing input description")))
      && (p.descriptions != [] && p.inputDescs != [] && p.outputDescs == [] ==>
            r == Err(Parse("Missing output description")))
      && (p.descriptions != [] && p.inputDescs != [] && p.outputDescs != [] ==>
            && r.Ok? && fresh(r.value)
            && r.value.id == problemId
            && r.value.title == meta.value.titleKo
            && r.value.level == FromRank(meta.value.level)
            && r.value.description == p.descriptions[0]
            && r.value.inputDesc == p.inputDescs[0]
            && r.value.outputDesc == p.outputDescs[0]
            && r.value.testCases == Pairs(p.sampleInputs, p.sampleOutputs))
  {
    if meta.Err? {
      return Err(Http(meta.error));
    }
    if page.Err? {
      return Err(Http(page.error));
    }
    var title, level := meta.value.titleKo, FromRank(meta.value.level);
    var doc := page.value;
    if doc.descriptions == [] {
      return Err(Parse("Missing problem description"));
    }
    if doc.inputDescs == [] {
      return Err(Parse("Missing input description"));
    }
    if doc.outputDescs == [] {
      return Err(Parse("Missing output description"));
    }
    var problem := new Problem(problemId, title, doc.descriptions[0], doc.inputDescs[0],
                               doc.outputDescs[0], level);
    var pairs := Pairs(doc.sampleInputs, doc.sampleOutputs);
    var i := 0;
    while i < |doc.sampleInputs| && i < |doc.sampleOutputs|
      invariant 0 <= i <= |pairs|
      invariant problem.testCases == pairs[..i]
      invariant problem.id == problemId && problem.title == title && problem.level == level
      invariant problem.description == doc.descriptions[0]
      invariant problem.inputDesc == doc.inputDescs[0] && problem.outputDesc == doc.outputDescs[0]
    {
      problem.AddTestCase(doc.sampleInputs[i], doc.sampleOutputs[i]);
      assert pairs[..i + 1] == pairs[..i] + [pairs[i]];
      i := i + 1;
    }
    assert pairs[..i] == pairs;
    return Ok(problem);
  }
}
