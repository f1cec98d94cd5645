# Share-intent serializer of the open-with plugin

This project models `Serializer`, the class of the Cordova open-with plugin's
Android side that turns an incoming share intent into the record handed to
JavaScript: `{action, exit, items}`. The class has three parts:

- `translateAction` maps the two send actions to `"SEND"` and the view action
  to `"VIEW"`.
- `readExitOnSent` reads the `exit_on_sent` flag.
- `items` comes from the first of three extraction paths that yields
  something. Those paths are the clip data, then the `EXTRA_STREAM` extra,
  then the intent's data Uri.

Modules:

- `Wrappers` (wrappers.dfy): `Option`, which stands for Java's `null`.
- `Android` (android.dfy): the platform values the serializer reads.
  - An `Intent` has an optional action, extras, clip data and data Uri.
  - A `Bundle` is a map from keys to typed values. `Bundle.getString`,
    `Bundle.getBoolean` and the `(Uri)` cast are modelled with their
    wrong-type behaviour.
  - A `ClipData` holds the clip-wide MIME types and the ordered clip items.
  - A `ContentResolver` is a value made of two total functions. `getType` is
    the type query. `realPath` is the MediaStore path lookup
    `getRealPathFromURI`, which gives `""` when the cursor or its DATA
    column is missing.
- `Serializer` (serializer.dfy): the operations.
  - The option-returning builders are functions.
  - `itemsFromClipData` is a method. Its `for` loop fills a fresh array slot
    by slot, with `continue` as in the source, and it is proved equal to the
    specification function `ClipSlots`.
  - `toJSONObject(ContentResolver, Intent)` is a method. It grows a local
    item list step by step and is proved equal to the specification function
    `Normalize`.
- `SerializerProperties` (properties.dfy): lemmas about the model.
  - How the clip slots are classified.
  - The precedence of the three paths.
  - Worked examples: an empty intent, a text send, a view of a media Uri, a
    Uri-list clip and a plain-text clip.

Modelling decisions:

- `URLUtil.isValidUrl` is a parameter `isValidUrl: string -> bool`.
- The `SDK_INT >= KITKAT` guard is a parameter `kitkat: bool`.
- Uris are strings that are never inspected.
- The clip output is a `seq<Option<Item>>` with exactly one slot per clip
  item, whether or not the slot is filled. Empty slots stay in place.
  `new JSONArray(Object[])` keeps a `null` entry as a JSON null, so
  `items.length()` counts empty slots. As a result, the stream and data
  fallbacks run only when there is no clip data or the clip has no items. A
  clip of empty slots does not trigger them.
- The test `ClipDescription.hasMimeType` does only wildcard matching on the
  type asked for. Both types asked for here are concrete, so the model uses
  set membership.
- The doc comment of `toJSONObject(ContentResolver, Intent)`
  (Serializer.java:26-31) says that `null` is returned when no streams or
  clip data are given. The code always returns an object (line 57), with an
  empty `items` list when nothing is found. The model follows the code; see
  `NormalizeEmptyIntent`.
- Two Java crashes become preconditions. They are bundled in
  `Serializable`.
  - Under `text/plain` (and not `text/uri-list`), every clip item's text must
    be present. Line 99 dereferences `getText()`.
  - When the stream extra is read, it must be missing or a Uri. The cast at
    line 133 throws otherwise, for example on the `ArrayList<Uri>` of a
    multi-item share.
  - The stream requirement applies only when the clip path is empty,
    because only then is the extra read.

## Model

| member | source | states |
|---|---|---|
| `Serializer.TranslateAction` | src/android/cc/fovea/openwith/Serializer.java:60-68 | both send actions give "SEND", the view action gives "VIEW", every other action including null passes through unchanged |
| `SerializerProperties.TranslateActionIdempotent` | src/android/cc/fovea/openwith/Serializer.java:60-68 | translating twice equals translating once |
| `SerializerProperties.TranslateActionPreimages` | src/android/cc/fovea/openwith/Serializer.java:60-68 | "SEND" results exactly from the two send actions or a literal "SEND", and "VIEW" exactly from the view action or a literal "VIEW" |
| `Serializer.ReadExitOnSent` | src/android/cc/fovea/openwith/Serializer.java:73-78 | true iff extras are present and hold `exit_on_sent` as the flag true; absent extras, a missing key or a non-boolean value give false |
| `Serializer.ItemFromUri` | src/android/cc/fovea/openwith/Serializer.java:175-188 | absent iff the Uri is absent; otherwise a resource item whose uri is the input, whose type is the resolver's type and whose path is the resolver's path (possibly "", still an item) |
| `Serializer.ItemFromData` | src/android/cc/fovea/openwith/Serializer.java:155-165 | absent iff the data Uri is absent; otherwise the resource item of that Uri, the same as the converter's |
| `Serializer.ItemFromExtras` | src/android/cc/fovea/openwith/Serializer.java:123-134 | absent iff extras are absent or hold no stream; otherwise a resource item whose uri is the stream Uri, with type and path from the resolver |
| `SerializerProperties.StreamAndDataShareConverter` | src/android/cc/fovea/openwith/Serializer.java:131-133 | the stream extractor is the data extractor applied to the stream Uri |
| `Serializer.UrlFromExtra` | src/android/cc/fovea/openwith/Serializer.java:139-150 | absent iff extras are absent; otherwise a link item whose url is the EXTRA_TEXT string and whose title is the EXTRA_SUBJECT string, each possibly absent |
| `Serializer.ClipSlots` | src/android/cc/fovea/openwith/Serializer.java:85-117 | no slots without clip data; otherwise exactly one slot per clip item, slot i being the classification of clip item i |
| `Serializer.ClipSlot` | src/android/cc/fovea/openwith/Serializer.java:90-113 | the content of one slot, as the loop body computes it; it carries no contract of its own, and its meaning is stated by the ClipSlot* and UriListSlotsAreExtrasLink lemmas below |
| `Serializer.ItemsFromClipData` | src/android/cc/fovea/openwith/Serializer.java:81-118 | the array filled by the loop, with untouched slots left empty, equals the slot specification `ClipSlots` |
| `SerializerProperties.UriListSlotsAreExtrasLink` | src/android/cc/fovea/openwith/Serializer.java:91-95 | under text/uri-list every slot is the extras link whatever the clip items hold, no slot is a resource, and without extras every slot is empty |
| `SerializerProperties.ClipSlotIsLocal` | src/android/cc/fovea/openwith/Serializer.java:89-113 | slot i depends only on clip item i, the clip's MIME types, the extras and the data Uri |
| `SerializerProperties.ClipSlotIsLinkExactly` | src/android/cc/fovea/openwith/Serializer.java:91-105 | a slot is a link iff extras are present and the clip is a Uri list or plain text whose item text is a valid URL; such a link is the extras link |
| `SerializerProperties.ClipSlotResourceOrigin` | src/android/cc/fovea/openwith/Serializer.java:107-112 | a resource slot never arises under text/uri-list; it comes from the item's own Uri when the item has one and from the data Uri only when it has none |
| `SerializerProperties.ClipSlotEmptyExactly` | src/android/cc/fovea/openwith/Serializer.java:88-112 | a slot stays empty iff (Uri list and no extras) or (link branch not taken and neither item nor intent has a Uri) |
| `Serializer.Normalize` | src/android/cc/fovea/openwith/Serializer.java:36-57 | the record built from the clip slots, else the stream item, else the data item, beside the action and the exit flag; it carries no contract of its own, and its meaning is stated by the Normalize* lemmas below |
| `Serializer.ToJSONObject` | src/android/cc/fovea/openwith/Serializer.java:32-58 | the list built step by step, with the action and the exit flag, equals the record `Normalize` specifies |
| `SerializerProperties.NormalizeHeader` | src/android/cc/fovea/openwith/Serializer.java:53-56 | action and exit are the translated action and the exit flag, independent of the items |
| `SerializerProperties.NormalizeClipWins` | src/android/cc/fovea/openwith/Serializer.java:37-40 | when the clip path yields slots, the items are those slots, empty ones included, one per clip item |
| `SerializerProperties.NormalizeIgnoresStreamAfterClip` | src/android/cc/fovea/openwith/Serializer.java:40-45 | when the clip path yields slots, any value stored under EXTRA_STREAM, even an uncastable one, leaves the record unchanged |
| `SerializerProperties.NormalizeFallback` | src/android/cc/fovea/openwith/Serializer.java:40-51 | when the clip path is empty: at most one item and never an empty slot; the stream item if there is one, else the data item if there is one, else nothing |
| `SerializerProperties.NormalizeEmptySlotsComeFromClip` | src/android/cc/fovea/openwith/Serializer.java:36-51 | an empty slot in the record implies the clip path produced the items |
| `SerializerProperties.NormalizeEmptyIntent` | src/android/cc/fovea/openwith/Serializer.java:32-58 | no clip data, no extras and no data give the translated action, exit false and no items |
| `SerializerProperties.NormalizeTextSendHasNoItems` | src/android/cc/fovea/openwith/Serializer.java:40-51 | a text send with subject but no stream, clip or data yields action "SEND", exit false and no items |
| `SerializerProperties.NormalizeViewOfMedia` | src/android/cc/fovea/openwith/Serializer.java:46-51 | a view of a media Uri yields one resource item with the resolver's type and path |
| `SerializerProperties.NormalizeUriListClip` | src/android/cc/fovea/openwith/Serializer.java:91-95 | a two-item Uri-list clip with link extras yields two copies of the extras link and reads the exit flag |
| `SerializerProperties.NormalizePlainTextClip` | src/android/cc/fovea/openwith/Serializer.java:97-112 | in a plain-text clip, an item with a valid URL becomes the extras link and an item with other text becomes its own Uri's resource |

## Left out

- `getDataFromURI` (Serializer.java:191-202) reads a stream and Base64-encodes it through foreign calls. The serializer above never calls it.
- `getRealPathFromURI` (Serializer.java:207-224) is a MediaStore cursor query. It is the abstract `realPath` of the resolver, and the model does not model the cursor, the column lookup or closing.
- `realPath` always yields a string. Two behaviours of `getRealPathFromURI` are therefore not modelled. A NULL DATA value makes it return `null`, and `json.put("path", null)` (line 186) then drops the `path` key. An empty cursor makes `getString` (line 221) throw, because the result of `moveToFirst()` (line 220) is not checked.
- `ContentResolver.getType` and `URLUtil.isValidUrl` are platform calls. They are abstract functions supplied by the caller.
- The `Build.VERSION.SDK_INT` check is environment state. It is the boolean parameter `kitkat`.
- JSON mechanics are replaced by datatypes. That covers `JSONException`, how `put` drops a key whose value is `null`, and how Uris are written as strings. An absent field is `None`.
- Two crashes are preconditions, not modelled error results. One is the `NullPointerException` when a plain-text clip item has no text (for example, a shared text file that carries only a Uri). The other is the `ClassCastException` when `EXTRA_STREAM` holds something other than a Uri.
- Bundle value kinds other than strings, flags and Uris are collapsed into one `Other` kind.
