/**
 * Attachment handling of the task API (`handle_file_upload` and
 * `get_content_type` in taskapp/lambda-functions/tasks-functions.py): the
 * base64 payload is cut out of the data URL the browser sends, the object is
 * stored under `tasks/{user}/{task}/{seconds}_{filename}`, and its media type
 * is looked up from the file extension.
 */
module TaskFiles {
  import opened Wrappers
  import opened Text

  /**
   * `file_data.split(',')[1]` when the data contains a comma, else the data
   * unchanged: the segment after the first comma, up to the next comma or the
   * end.
   */
  function StripDataUrlPrefix(data: string): (r: string)
    ensures ',' !in r
    ensures ',' !in data ==> r == data
    ensures ',' in data ==>
      var head := UpTo(data, ',');
      && |head| + 1 + |r| <= |data|
      && data[|head|] == ','
      && data[|head| + 1..|head| + 1 + |r|] == r
      && (|head| + 1 + |r| == |data| || data[|head| + 1 + |r|] == ',')
  {
    if ',' in data then
      var head := UpTo(data, ',');
      UpTo(data[|head| + 1..], ',')
    else
      data
  }

  /** What `FileReader.readAsDataURL` produces for a base64 payload. */
  function DataUrl(mediaType: string, payload: string): (url: string)
  {
    "data:" + mediaType + ";base64," + payload
  }

  /**
   * The server recovers exactly the payload the browser's reader embedded,
   * since neither a media type nor base64 text contains a comma.
   */
  lemma DataUrlRoundTrip(mediaType: string, payload: string)
    requires ',' !in mediaType && ',' !in payload
    ensures StripDataUrlPrefix(DataUrl(mediaType, payload)) == payload
  {
    var d := DataUrl(mediaType, payload);
    var pre := "data:" + mediaType + ";base64";
    assert d == pre + "," + payload;
    assert ',' !in pre by {
      forall i | 0 <= i < |pre| ensures pre[i] != ',' {
        if 5 <= i < 5 + |mediaType| {
          assert pre[i] == mediaType[i - 5];
        }
      }
    }
    assert ',' in d by { assert d[|pre|] == ','; }
    UpToPrefix(pre, ',', payload);
    var r := StripDataUrlPrefix(d);
    assert d[|pre| + 1..] == payload;
    assert r == d[|pre| + 1..|pre| + 1 + |r|];
  }

  /** The S3 key of an attachment: `tasks/{user_id}/{task_id}/{timestamp}_{filename}`. */
  function ObjectKey(userId: string, taskId: string, timestamp: nat, filename: string): (key: string)
  {
    "tasks/" + userId + "/" + taskId + "/" + NatToString(timestamp) + "_" + filename
  }

  /**
   * A key lies in the folder `tasks/{user}/{task}/` and ends with `_` and the
   * original filename.
   */
  lemma ObjectKeyLayout(userId: string, taskId: string, timestamp: nat, filename: string)
    ensures var folder := "tasks/" + userId + "/" + taskId + "/";
            var key := ObjectKey(userId, taskId, timestamp, filename);
            && |folder| + 1 + |filename| < |key|
            && key[..|folder|] == folder
            && key[|key| - |filename|..] == filename && key[|key| - |filename| - 1] == '_'
  {
    var folder := "tasks/" + userId + "/" + taskId + "/";
    var key := ObjectKey(userId, taskId, timestamp, filename);
    assert key == folder + (NatToString(timestamp) + "_" + filename);
  }

  lemma {:induction false} SplitAtSeparator(a1: string, b1: string, a2: string, b2: string, sep: char)
    requires sep !in a1 && sep !in a2
    requires a1 + [sep] + b1 == a2 + [sep] + b2
    ensures a1 == a2 && b1 == b2
  {
    var s := a1 + [sep] + b1;
    assert |a1| == |a2| by {
      assert s[|a1|] == sep && (a2 + [sep] + b2)[|a2|] == sep;
    }
    assert a1 == s[..|a1|] == a2;
    assert b1 == s[|a1| + 1..] == b2;
  }

  /**
   * Distinct uploads get distinct keys: when ids contain no '/', the key
   * determines the user, the task, the upload second and the filename.
   */
  lemma ObjectKeyInjective(u1: string, t1: string, ts1: nat, f1: string,
                           u2: string, t2: string, ts2: nat, f2: string)
    requires '/' !in u1 && '/' !in u2 && '/' !in t1 && '/' !in t2
    requires ObjectKey(u1, t1, ts1, f1) == ObjectKey(u2, t2, ts2, f2)
    ensures u1 == u2 && t1 == t2 && ts1 == ts2 && f1 == f2
  {
    var d1, d2 := NatToString(ts1), NatToString(ts2);
    var r1 := t1 + "/" + d1 + "_" + f1;
    var r2 := t2 + "/" + d2 + "_" + f2;
    var k := ObjectKey(u1, t1, ts1, f1);
    assert k[6..] == u1 + ['/'] + r1;
    assert ObjectKey(u2, t2, ts2, f2)[6..] == u2 + ['/'] + r2;
    assert u1 + ['/'] + r1 == u2 + ['/'] + r2;
    SplitAtSeparator(u1, r1, u2, r2, '/');
    assert r1 == t1 + ['/'] + (d1 + "_" + f1);
    assert r2 == t2 + ['/'] + (d2 + "_" + f2);
    SplitAtSeparator(t1, d1 + "_" + f1, t2, d2 + "_" + f2, '/');
    assert !IsDigit('_');
    assert d1 + ['_'] + f1 == d2 + ['_'] + f2;
    SplitAtSeparator(d1, f1, d2, f2, '_');
    NatToStringRoundTrip(ts1);
    NatToStringRoundTrip(ts2);
  }

  /** The text of `s` after its last dot (all of `s` when it has none). */
  function AfterLastDot(s: string): (r: string)
    ensures '.' !in r
    ensures |r| <= |s| && r == s[|s| - |r|..]
    ensures |r| < |s| ==> s[|s| - |r| - 1] == '.'
  {
    if s == [] || s[|s| - 1] == '.' then [] else AfterLastDot(s[..|s| - 1]) + [s[|s| - 1]]
  }

  lemma {:induction false} AfterLastDotSuffix(name: string, ext: string)
    requires '.' !in ext
    ensures AfterLastDot(name + "." + ext) == ext
  {
    if ext != [] {
      var s := name + "." + ext;
      assert s[..|s| - 1] == name + "." + ext[..|ext| - 1];
      AfterLastDotSuffix(name, ext[..|ext| - 1]);
    }
  }

  /** `filename.lower().split('.')[-1] if '.' in filename else ''`. */
  function Extension(filename: string): (ext: string)
    ensures '.' !in ext
    ensures '.' !in filename ==> ext == ""
  {
    if '.' in filename then AfterLastDot(Lower(filename)) else ""
  }

  /** The media types the API knows, by lower-case extension. */
  const MediaTypes: map<string, string> := map[
    "pdf" := "application/pdf",
    "doc" := "application/msword",
    "docx" := "application/vnd.openxmlformats-officedocument.wordprocessingml.document",
    "txt" := "text/plain",
    "jpg" := "image/jpeg",
    "jpeg" := "image/jpeg",
    "png" := "image/png",
    "gif" := "image/gif",
    "zip" := "application/zip",
    "csv" := "text/csv"
  ]

  const DefaultMediaType := "application/octet-stream"

  /** The media type of a lower-case extension, or the binary default. */
  function MediaTypeOf(ext: string): (mediaType: string)
  {
    if ext in MediaTypes then MediaTypes[ext] else DefaultMediaType
  }

  /** `get_content_type`: the media type of the extension. */
  function ContentType(filename: string): (mediaType: string)
    ensures '.' !in filename ==> mediaType == DefaultMediaType
    ensures mediaType == DefaultMediaType || mediaType in MediaTypes.Values
  {
    MediaTypeOf(Extension(filename))
  }

  lemma {:induction false} LowerAppend(a: string, b: string)
    ensures Lower(a + b) == Lower(a) + Lower(b)
  {
    if a == [] {
      assert a + b == b;
    } else {
      assert (a + b)[1..] == a[1..] + b;
      LowerAppend(a[1..], b);
    }
  }

  lemma LowerKeepsNoDot(s: string)
    requires '.' !in s
    ensures '.' !in Lower(s)
  {
    forall i | 0 <= i < |s| ensures Lower(s)[i] != '.' {
      assert s[i] != '.';
    }
  }

  /**
   * The media type depends only on the text after the last dot, compared
   * case-insensitively: `name + "." + ext` gets the type of `Lower(ext)`.
   */
  lemma ContentTypeOfSuffix(name: string, ext: string)
    requires '.' !in ext
    ensures ContentType(name + "." + ext) == MediaTypeOf(Lower(ext))
  {
    var f := name + "." + ext;
    assert f[|name|] == '.';
    LowerAppend(name + ".", ext);
    LowerAppend(name, ".");
    assert Lower(".") == ".";
    LowerKeepsNoDot(ext);
    AfterLastDotSuffix(Lower(name), Lower(ext));
  }

  lemma LowerIdempotent(s: string)
    ensures Lower(Lower(s)) == Lower(s)
  {
  }

  /** Upper or lower case makes no difference to the media type. */
  lemma ContentTypeIgnoresCase(name: string, ext: string)
    requires '.' !in ext
    ensures ContentType(name + "." + ext) == ContentType(name + "." + Lower(ext))
  {
    LowerKeepsNoDot(ext);
    LowerIdempotent(ext);
    ContentTypeOfSuffix(name, ext);
    ContentTypeOfSuffix(name, Lower(ext));
  }

  /** What `handle_file_upload` puts into S3 before it returns the key. */
  datatype Upload = Upload(
    key: string, body: string, contentType: string,
    taskId: string, userId: string, filename: string)

  /**
   * The upload of `handle_file_upload`: nothing unless both the data and the
   * filename are truthy; otherwise the base64 payload of the data, stored
   * under the key for this user, task and second, with the filename's media
   * type and the ids as metadata.
   */
  function PlanUpload(fileData: Option<string>, filename: Option<string>,
                      taskId: string, userId: string, timestamp: nat): (u: Option<Upload>)
    ensures u.None? <==> !Truthy(fileData) || !Truthy(filename)
    ensures u.Some? ==>
      && u.value.key == ObjectKey(userId, taskId, timestamp, filename.value)
      && u.value.body == StripDataUrlPrefix(fileData.value)
      && u.value.contentType == ContentType(filename.value)
      && u.value.filename == filename.value
      && u.value.taskId == taskId && u.value.userId == userId
  {
    if !Truthy(fileData) || !Truthy(filename) then None
    else
      var name := filename.value;
      Some(Upload(ObjectKey(userId, taskId, timestamp, name), StripDataUrlPrefix(fileData.value),
                  ContentType(name), taskId, userId, name))
  }
}
