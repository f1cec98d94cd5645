/**
 The Android values the share serializer reads, as plain data: the intent,
 its extras bundle, its clip data, and the content resolver it consults.
 */
module Android {
  import opened Wrappers

  /** An `android.net.Uri`. The serializer never looks inside one; it only
      hands it to the resolver and copies it into the output. */
  type Uri = string

  const ACTION_SEND := "android.intent.action.SEND"
  const ACTION_SEND_MULTIPLE := "android.intent.action.SEND_MULTIPLE"
  const ACTION_VIEW := "android.intent.action.VIEW"

  const EXTRA_TEXT := "android.intent.extra.TEXT"
  const EXTRA_SUBJECT := "android.intent.extra.SUBJECT"
  const EXTRA_STREAM := "android.intent.extra.STREAM"

  const MIME_URI_LIST := "text/uri-list"
  const MIME_TEXT_PLAIN := "text/plain"

  /** A value stored in a `Bundle`. `Other` is any other parcelable object,
      for instance the `ArrayList<Uri>` a multi-item share stores under
      `EXTRA_STREAM`. */
  datatype Value = Str(s: string) | Flag(b: bool) | Ref(uri: Uri) | Other

  /** An `android.os.Bundle`: a map from keys to values. A key that holds
      Java `null` (for instance after `putExtra(EXTRA_STREAM, (Uri) null)`)
      reads exactly like a missing key: the Uri cast yields `null`,
      `getString` yields `null` and `getBoolean` yields its default. Such a
      key is therefore represented by leaving it out of the map, and
      `CastsToUri` does not exclude it. */
  type Bundle = map<string, Value>

  /** `Bundle.getString(key)`: the string stored under `key`, or `null` when the
      key is missing or holds something that is not a string. */
  function GetString(b: Bundle, key: string): (r: Option<string>)
    ensures r.Some? <==> key in b && b[key].Str?
    ensures r.Some? ==> b[key] == Str(r.value)
  {
    if key in b && b[key].Str? then Some(b[key].s) else None
  }

  /** `Bundle.getBoolean(key, default)`: the flag stored under `key`, or
      `default` when the key is missing or holds something that is not a flag. */
  function GetBoolean(b: Bundle, key: string, default: bool): (r: bool)
    ensures key in b && b[key].Flag? ==> b[key] == Flag(r)
    ensures !(key in b && b[key].Flag?) ==> r == default
  {
    if key in b && b[key].Flag? then b[key].b else default
  }

  /** The Java cast `(Uri) b.get(key)` succeeds: the key is missing (the cast of
      `null` is `null`) or it holds a Uri. Anything else throws
      `ClassCastException`. */
  predicate CastsToUri(b: Bundle, key: string)
  {
    key in b ==> b[key].Ref?
  }

  /** `(Uri) b.get(key)`, for a bundle where the cast succeeds. */
  function GetUri(b: Bundle, key: string): (r: Option<Uri>)
    requires CastsToUri(b, key)
    ensures r.Some? <==> key in b
    ensures r.Some? ==> b[key] == Ref(r.value)
  {
    if key in b then Some(b[key].uri) else None
  }

  /** A `ClipData.Item`: optional text and an optional Uri. */
  datatype ClipItem = ClipItem(text: Option<string>, uri: Option<Uri>)

  /** A `ClipData`: the MIME types of its `ClipDescription`, which describe the
      whole clip, and its items in order. */
  datatype ClipData = ClipData(mimeTypes: set<string>, items: seq<ClipItem>)

  /** `ClipDescription.hasMimeType(mime)`. Android matches wildcards only in the
      type asked for; both types asked for here are concrete, so the test is
      membership. */
  predicate HasMimeType(clip: ClipData, mime: string)
  {
    mime in clip.mimeTypes
  }

  /** The parts of an `android.content.Intent` the serializer reads. */
  datatype Intent = Intent(
    action: Option<string>,
    extras: Option<Bundle>,
    clipData: Option<ClipData>,
    data: Option<Uri>)

  /** The content resolver: `ContentResolver.getType`, and the MediaStore path
      lookup `Serializer.getRealPathFromURI`, which yields `""` when the cursor
      or its DATA column is missing. Both are platform queries, kept abstract. */
  datatype ContentResolver = ContentResolver(
    getType: Uri -> Option<string>,
    realPath: Uri -> string)
}
