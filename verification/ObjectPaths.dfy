// src/object_path.rs: parsing and printing of gs:// object names.
module ObjectPaths {
  import opened Wrappers
  import opened Errors
  import Utf8

  datatype ObjectPath = ObjectPath(bucket: string, name: string)

  const MAX_OBJECT_NAME_BYTES: nat := 1024
  const SCHEME: string := "gs://"

  // The first occurrence of the separator splits the text.
  function SplitOnce(text: string, separator: char): (r: Option<(string, string)>)
    ensures r.None? <==> separator !in text
    ensures r.Some? ==> text == r.value.0 + [separator] + r.value.1 && separator !in r.value.0
  {
    if text == "" then None
    else if text[0] == separator then
      assert text == "" + [separator] + text[1..];
      Some(("", text[1..]))
    else
      match SplitOnce(text[1..], separator)
      case None => None
      case Some((left, right)) =>
        assert text == ([text[0]] + left) + [separator] + right;
        Some(([text[0]] + left, right))
  }

  function Parse(value: string): Result<ObjectPath, AppError> {
    if !(SCHEME <= value) then Err(InvalidStorageUri)
    else
      match SplitOnce(value[|SCHEME|..], '/')
      case None => Err(InvalidStorageUri)
      case Some((bucket, name)) =>
        if bucket == "" || name == "" then Err(InvalidStorageUri) else Ok(ObjectPath(bucket, name))
  }

  function Uri(path: ObjectPath): string {
    SCHEME + path.bucket + "/" + path.name
  }

  predicate ValidNameLength(path: ObjectPath) {
    Utf8.Length(path.name) <= MAX_OBJECT_NAME_BYTES
  }

  lemma {:induction false} SplitOnceAtFirst(left: string, separator: char, right: string)
    requires separator !in left
    ensures SplitOnce(left + [separator] + right, separator) == Some((left, right))
  {
    var text := left + [separator] + right;
    if left == "" {
      assert text[1..] == right;
    } else {
      assert text[1..] == left[1..] + [separator] + right;
      SplitOnceAtFirst(left[1..], separator, right);
      assert [text[0]] + left[1..] == left;
    }
  }

  // Printing and parsing undo each other exactly on the paths a bucket can hold,
  // and whatever parses prints back to the text it came from.
  lemma UriRoundTrip(path: ObjectPath)
    ensures Parse(Uri(path)) == Ok(path)
       <==> path.bucket != "" && '/' !in path.bucket && path.name != ""
  {
    var rest := path.bucket + ['/'] + path.name;
    assert Uri(path)[|SCHEME|..] == rest;
    if '/' !in path.bucket {
      SplitOnceAtFirst(path.bucket, '/', path.name);
    }
  }

  lemma ParsedPrintsBack(value: string)
    requires Parse(value).Ok?
    ensures Uri(Parse(value).value) == value
    ensures '/' !in Parse(value).value.bucket
  {
    assert value == SCHEME + value[|SCHEME|..];
  }
}
