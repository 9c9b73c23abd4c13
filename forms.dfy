/**
 * Form data and its multipart encoding (`convertFormDataIntoMultipart`).
 * An uploaded file is a tagged value carrying its storage path and the name
 * the client gave it; opening the file becomes a handle on that path.
 */
module Forms {
  import opened Options
  import opened Php

  /** A form value: a plain PHP value or an uploaded file. */
  datatype FormValue = Scalar(v: Value) | File(path: string, originalName: string)

  /** Form data: field name to value, in insertion order. */
  type FormFields = seq<(string, FormValue)>

  /** What a part carries: a plain value, or a read handle opened on a file path. */
  datatype Contents = Plain(v: Value) | Handle(path: string)

  /** One multipart row: `name`, `contents` and, for files only, `filename`. */
  datatype Part = Part(name: string, contents: Contents, filename: Option<string>)

  /** Some field of the form is an uploaded file. */
  predicate HasFile(data: FormFields) {
    exists i :: 0 <= i < |data| && data[i].1.File?
  }

  /** The row for one form field. */
  function PartOf(name: string, value: FormValue): Part {
    match value
    case File(path, originalName) => Part(name, Handle(path), Some(originalName))
    case Scalar(v) => Part(name, Plain(v), None)
  }

  /** The rows for a whole form, one per field in order. */
  function ToParts(data: FormFields): (parts: seq<Part>)
    ensures |parts| == |data|
    decreases |data|
  {
    if data == [] then []
    else ToParts(data[..|data| - 1]) + [PartOf(data[|data| - 1].0, data[|data| - 1].1)]
  }

  /** The form field a row stands for: the inverse of PartOf. */
  function FieldOf(part: Part): (string, FormValue) {
    match part.contents
    case Handle(path) => (part.name, File(path, part.filename.GetOr("")))
    case Plain(v) => (part.name, Scalar(v))
  }

  /** The form a list of rows stands for. */
  function FromParts(parts: seq<Part>): FormFields
    decreases |parts|
  {
    if parts == [] then []
    else FromParts(parts[..|parts| - 1]) + [FieldOf(parts[|parts| - 1])]
  }

  /**
   * Row i names field i; a file row carries the client's file name and a
   * handle on the file's path; a scalar row carries the value and no file name.
   */
  lemma {:induction false} PartAt(data: FormFields, i: nat)
    requires i < |data|
    ensures var p := ToParts(data)[i];
            && p.name == data[i].0
            && (p.filename.Some? <==> data[i].1.File?)
            && (data[i].1.File? ==> p.filename == Some(data[i].1.originalName) && p.contents == Handle(data[i].1.path))
            && (data[i].1.Scalar? ==> p.contents == Plain(data[i].1.v))
    decreases |data|
  {
    var n := |data| - 1;
    if i < n {
      PartAt(data[..n], i);
      assert data[..n][i] == data[i];
    }
  }

  /** Encoding a form as rows loses nothing: the rows give the form back. */
  lemma {:induction false} PartsRoundTrip(data: FormFields)
    ensures FromParts(ToParts(data)) == data
    decreases |data|
  {
    if data != [] {
      var n := |data| - 1;
      var parts := ToParts(data);
      assert parts[..n] == ToParts(data[..n]);
      PartsRoundTrip(data[..n]);
      assert data[..n] + [data[n]] == data;
    }
  }
}
