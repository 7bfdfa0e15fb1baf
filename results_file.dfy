/** The content of `results.json` as far as the reporting script reads it.
    Only the keys `tests`, `name` and `outcome` are ever looked at, always
    through `dict.get`, so a JSON document is reduced to those. */
module ResultsFile {
  import opened Runtime

  /** A value fetched with `dict.get(key)`. A missing key and an explicit
      JSON `null` both give `None` (`Absent`). A number or a boolean is a
      hashable non-string; a list or an object is unhashable. The rendering
      is Python's `str()` of the value, which the model takes as given. */
  datatype Field =
    | Absent
    | Str(text: string)
    | Scalar(rendered: string)
    | Compound(rendered: string)

  /** One element of `results['tests']`. Any element that is not a JSON
      object has no `.get` method. */
  datatype Record = Entry(name: Field, outcome: Field) | NonObject

  /** The value of the `tests` key. `Iterable` lists what a `for` loop over
      it yields: the elements of a JSON array, or, for a JSON object or a
      string, its keys or characters, each of which is a `NonObject`. A JSON
      `null`, number or boolean cannot be iterated. */
  datatype TestsValue = Missing | Iterable(records: seq<Record>) | NotIterable

  /** The top-level JSON value of the file. */
  datatype Document = Object(tests: TestsValue) | NonObjectDocument

  /** What opening and decoding `results.json` gives: the two caught failures
      (`FileNotFoundError`, `json.JSONDecodeError`); any other failure of
      `open`, an `OSError` that escapes; any other failure of `json.load`
      (`UnicodeDecodeError`, `RecursionError`), which escapes too; or the
      decoded document. */
  datatype LoadResult = FileNotFound | InvalidJson | OpenFailed | DecodeFailed | Loaded(document: Document)

  /** `results.get('tests', [])` followed by the start of iterating it. */
  function TestsOf(doc: Document): (r: Result<seq<Record>>)
    ensures r.Success? <==> doc.Object? && !doc.tests.NotIterable?
    ensures r.Failure? ==> (r.error == AttributeError <==> doc.NonObjectDocument?)
    ensures r.Failure? ==> r.error == AttributeError || r.error == TypeError
    ensures doc.Object? && doc.tests.Missing? ==> r == Success([])
  {
    match doc
    case NonObjectDocument => Failure(AttributeError)
    case Object(Missing) => Success([])
    case Object(Iterable(records)) => Success(records)
    case Object(NotIterable) => Failure(TypeError)
  }

  /** The text `f"{value}"` produces for a field: `None` for an absent one. */
  function Render(f: Field): (text: string)
    ensures f.Absent? ==> text == "None"
    ensures f.Str? ==> text == f.text
  {
    match f
    case Absent => "None"
    case Str(s) => s
    case Scalar(text) => text
    case Compound(text) => text
  }

  /** A results file of the shape the script expects: a JSON object whose
      `tests`, when present, is an array of objects whose `name`, when
      present, is not a list or an object. */
  predicate WellFormed(doc: Document)
  {
    && doc.Object?
    && !doc.tests.NotIterable?
    && (doc.tests.Iterable? ==>
          forall i :: 0 <= i < |doc.tests.records| ==>
            doc.tests.records[i].Entry? && !doc.tests.records[i].name.Compound?)
  }
}
