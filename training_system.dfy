/**
 * The training-data classes: examples with defaulted fields, documents, an
 * append-only example store, and the placeholder retrieval, preparation and
 * import steps that stand on it.
 */
module TrainingSystem {
  import opened Common

  /** A generated ISO-8601 timestamp; the clock never yields an empty one. */
  type Timestamp = s: string | |s| > 0 witness "1970-01-01T00:00:00"

  datatype TrainingExample = TrainingExample(
    inputText: string,
    outputText: string,
    category: string,
    source: string,
    createdAt: string)

  datatype Document = Document(content: string, title: string)

  /** The `Document` constructor: it keeps the content and the title it is given. */
  function NewDocument(content: string, title: string): (d: Document)
    ensures d.content == content && d.title == title
  {
    Document(content, title)
  }

  const DefaultCategory := "general"
  const DefaultSource := "manual"

  /**
   * The `TrainingExample` constructor. An omitted keyword argument is `None`;
   * `now` is the timestamp the clock would supply. A supplied `created_at`
   * is kept only when it is truthy (present and non-empty).
   */
  function NewTrainingExample(
    inputText: string, outputText: string,
    category: Option<string>, source: Option<string>, createdAt: Option<string>,
    now: Timestamp): (e: TrainingExample)
    ensures e.inputText == inputText && e.outputText == outputText
    ensures category.None? ==> e.category == "general"
    ensures category.Some? ==> e.category == category.value
    ensures source.None? ==> e.source == "manual"
    ensures source.Some? ==> e.source == source.value
    ensures e.createdAt != ""
    ensures createdAt.Some? && createdAt.value != "" ==> e.createdAt == createdAt.value
    ensures (createdAt.None? || createdAt.value == "") ==> e.createdAt == now
  {
    var stamp := if createdAt.Some? && createdAt.value != "" then createdAt.value else now;
    TrainingExample(inputText, outputText, category.GetOr(DefaultCategory), source.GetOr(DefaultSource), stamp)
  }

  /** The example built with only a category keeps it and takes the default source and the clock's timestamp. */
  lemma ConstructorDefaults(now: Timestamp)
    ensures var e := NewTrainingExample("What is AI?", "AI is artificial intelligence",
                                        Some("technology"), None, None, now);
            e.category == "technology" && e.source == "manual" && e.createdAt == now
  {
  }

  /** An example built with every field supplied keeps each of them. */
  lemma CustomValuesKept(now: Timestamp)
    ensures var e := NewTrainingExample("Test input", "Test output", Some("test"), Some("unittest"),
                                        Some("2023-01-01T00:00:00"), now);
            e.category == "test" && e.source == "unittest" && e.createdAt == "2023-01-01T00:00:00"
  {
  }

  /** The in-memory example store: a list that only ever grows at its end. */
  class TrainingDataManager {
    var examples: seq<TrainingExample>
    /** How many times `AddExample` has run since construction. */
    ghost var addCount: nat

    ghost predicate Valid()
      reads this
    {
      |examples| == addCount
    }

    constructor ()
      ensures Valid() && examples == [] && addCount == 0
    {
      examples := [];
      addCount := 0;
    }

    /** Appends `example`; earlier examples keep their values and order. */
    method AddExample(example: TrainingExample)
      requires Valid()
      modifies this
      ensures Valid()
      ensures examples == old(examples) + [example]
      ensures addCount == old(addCount) + 1
    {
      examples := examples + [example];
      addCount := addCount + 1;
    }

    /** Every example added so far, oldest first. */
    function GetExamples(): (r: seq<TrainingExample>)
      reads this
      requires Valid()
      ensures |r| == addCount
      ensures r == examples
    {
      examples
    }
  }

  /** The placeholder retriever: it answers every query with the whole store. */
  class SimpleRAGSystem {
    const dataManager: TrainingDataManager

    constructor (dataManager: TrainingDataManager)
      ensures this.dataManager == dataManager
    {
      this.dataManager := dataManager;
    }

    function Retrieve(query: string): (r: seq<TrainingExample>)
      reads dataManager
      requires dataManager.Valid()
      ensures r == dataManager.examples
      ensures |r| == dataManager.addCount
    {
      dataManager.GetExamples()
    }
  }

  /** The query plays no part in what is retrieved. */
  lemma RetrieveIgnoresQuery(rag: SimpleRAGSystem, q1: string, q2: string)
    requires rag.dataManager.Valid()
    ensures rag.Retrieve(q1) == rag.Retrieve(q2)
  {
  }

  /** `FinetuningDataPrep.prepare`: hands the examples back unchanged. */
  function Prepare(examples: seq<TrainingExample>): (r: seq<TrainingExample>)
    ensures r == examples
  {
    examples
  }

  /** `DataImporter.import_data`: imports nothing, whatever the path. */
  function ImportData(path: string): (r: seq<TrainingExample>)
    ensures r == []
  {
    []
  }
}
