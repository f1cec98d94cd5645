/**
 The share-intent serializer of the open-with plugin (class `Serializer`): it
 turns an Android share intent into one record holding the logical action, the
 "exit after sending" flag and the ordered list of shared items.
 */
module Serializer {
  import opened Wrappers
  import opened Android

  const EXIT_ON_SENT := "exit_on_sent"

  /** One shared item: a resource reached through a Uri, with its declared MIME
      type and best-effort local path, or a link taken from the extras. */
  datatype Item =
    | Resource(contentType: Option<string>, uri: Uri, path: string)
    | Text(url: Option<string>, title: Option<string>)

  /** The record handed to the JavaScript side: keys `action`, `exit`, `items`.
      A `None` entry of `items` is a clip slot that stayed `null`. */
  datatype Share = Share(action: Option<string>, exit: bool, items: seq<Option<Item>>)

  /** `translateAction`: both send actions become "SEND", the view action
      becomes "VIEW", every other action (and `null`) passes through. */
  function TranslateAction(action: Option<string>): (r: Option<string>)
    ensures action == Some(ACTION_SEND) || action == Some(ACTION_SEND_MULTIPLE) ==> r == Some("SEND")
    ensures action == Some(ACTION_VIEW) ==> r == Some("VIEW")
    ensures action !in {Some(ACTION_SEND), Some(ACTION_SEND_MULTIPLE), Some(ACTION_VIEW)} ==> r == action
  {
    if action == Some(ACTION_SEND) || action == Some(ACTION_SEND_MULTIPLE) then Some("SEND")
    else if action == Some(ACTION_VIEW) then Some("VIEW")
    else action
  }

  /** `readExitOnSent`: true exactly when there are extras and they hold the
      flag `exit_on_sent` set to true; missing extras, a missing key or a value
      of another kind all read as false. */
  function ReadExitOnSent(extras: Option<Bundle>): (r: bool)
    ensures r <==> extras.Some? && EXIT_ON_SENT in extras.value && extras.value[EXIT_ON_SENT] == Flag(true)
  {
    if extras.None? then false else GetBoolean(extras.value, EXIT_ON_SENT, false)
  }

  /** `toJSONObject(ContentResolver, Uri)`: no item without a Uri; otherwise a
      resource item carrying that Uri, its type from one `getType` query and its
      path from one path lookup. */
  function ItemFromUri(resolver: ContentResolver, uri: Option<Uri>): (r: Option<Item>)
    ensures r.None? <==> uri.None?
    ensures r.Some? ==> r.value.Resource? && r.value.uri == uri.value
    ensures r.Some? ==> r.value.contentType == resolver.getType(uri.value)
    ensures r.Some? ==> r.value.path == resolver.realPath(uri.value)
  {
    match uri
    case None => None
    case Some(u) => Some(Resource(resolver.getType(u), u, resolver.realPath(u)))
  }

  /** `itemFromData`: the item for the intent's data Uri, absent without one. */
  function ItemFromData(resolver: ContentResolver, data: Option<Uri>): (r: Option<Item>)
    ensures r.None? <==> data.None?
    ensures r.Some? ==> r.value.Resource? && r.value.uri == data.value
    ensures r == ItemFromUri(resolver, data)
  {
    if data.None? then None else ItemFromUri(resolver, data)
  }

  /** The `EXTRA_STREAM` cast of `itemFromExtras` cannot throw. */
  predicate StreamReadable(extras: Option<Bundle>)
  {
    extras.Some? ==> CastsToUri(extras.value, EXTRA_STREAM)
  }

  /** `itemFromExtras`: the item for the Uri stored under `EXTRA_STREAM`;
      absent when there are no extras or no stream. */
  function ItemFromExtras(resolver: ContentResolver, extras: Option<Bundle>): (r: Option<Item>)
    requires StreamReadable(extras)
    ensures r.None? <==> extras.None? || EXTRA_STREAM !in extras.value
    ensures r.Some? ==> r.value.Resource? && extras.value[EXTRA_STREAM] == Ref(r.value.uri)
    ensures r.Some? ==> r.value == Resource(resolver.getType(r.value.uri), r.value.uri, resolver.realPath(r.value.uri))
  {
    if extras.None? then None else ItemFromUri(resolver, GetUri(extras.value, EXTRA_STREAM))
  }

  /** `urlFromExtra`: absent exactly when there are no extras; otherwise a link
      item whose url is the `EXTRA_TEXT` string and whose title is the
      `EXTRA_SUBJECT` string, either of which may be missing. */
  function UrlFromExtra(extras: Option<Bundle>): (r: Option<Item>)
    ensures r.None? <==> extras.None?
    ensures r.Some? ==> r.value.Text?
    ensures r.Some? ==> r.value.url == GetString(extras.value, EXTRA_TEXT)
    ensures r.Some? ==> r.value.title == GetString(extras.value, EXTRA_SUBJECT)
  {
    match extras
    case None => None
    case Some(b) => Some(Text(GetString(b, EXTRA_TEXT), GetString(b, EXTRA_SUBJECT)))
  }

  /** Reading clip item `item` cannot throw: under `text/plain` (and not
      `text/uri-list`) its text is dereferenced, so it must be present. */
  predicate SlotReadable(clip: ClipData, item: ClipItem)
  {
    !HasMimeType(clip, MIME_URI_LIST) && HasMimeType(clip, MIME_TEXT_PLAIN) ==> item.text.Some?
  }

  predicate ClipReadable(clip: ClipData)
  {
    forall i :: 0 <= i < |clip.items| ==> SlotReadable(clip, clip.items[i])
  }

  /** What one slot of the clip array ends up holding, for clip item `item`:
      the collection-wide MIME types decide between a link from the extras and
      a resource from the item's own Uri, then from the intent's data Uri. */
  function ClipSlot(
    resolver: ContentResolver, isValidUrl: string -> bool,
    clip: ClipData, item: ClipItem, extras: Option<Bundle>, data: Option<Uri>): Option<Item>
    requires SlotReadable(clip, item)
  {
    if HasMimeType(clip, MIME_URI_LIST) then UrlFromExtra(extras)
    else if HasMimeType(clip, MIME_TEXT_PLAIN) && isValidUrl(item.text.value) && UrlFromExtra(extras).Some? then
      UrlFromExtra(extras)
    else
      var own := ItemFromUri(resolver, item.uri);
      if own.Some? then own else ItemFromData(resolver, data)
  }

  /** The slots `itemsFromClipData` produces: none without clip data, otherwise
      one per clip item, in order, with empty slots kept in place. */
  function ClipSlots(resolver: ContentResolver, isValidUrl: string -> bool, intent: Intent): (r: seq<Option<Item>>)
    requires intent.clipData.Some? ==> ClipReadable(intent.clipData.value)
    ensures intent.clipData.None? ==> r == []
    ensures intent.clipData.Some? ==> |r| == |intent.clipData.value.items|
    ensures intent.clipData.Some? ==> forall i :: 0 <= i < |r| ==>
      r[i] == ClipSlot(resolver, isValidUrl, intent.clipData.value, intent.clipData.value.items[i], intent.extras, intent.data)
  {
    match intent.clipData
    case None => []
    case Some(clip) =>
      seq(|clip.items|, i requires 0 <= i < |clip.items| =>
        ClipSlot(resolver, isValidUrl, clip, clip.items[i], intent.extras, intent.data))
  }

  /** `itemsFromClipData`: fills an array with one slot per clip item. A slot
      nothing is found for keeps its initial `null`. */
  method ItemsFromClipData(resolver: ContentResolver, isValidUrl: string -> bool, intent: Intent)
    returns (items: seq<Option<Item>>)
    requires intent.clipData.Some? ==> ClipReadable(intent.clipData.value)
    ensures items == ClipSlots(resolver, isValidUrl, intent)
  {
    if intent.clipData.None? {
      return [];
    }
    var clip := intent.clipData.value;
    var count := |clip.items|;
    var slots := new Option<Item>[count](_ => None);
    for i := 0 to count
      invariant forall k :: 0 <= k < i ==>
        slots[k] == ClipSlot(resolver, isValidUrl, clip, clip.items[k], intent.extras, intent.data)
      invariant forall k :: i <= k < count ==> slots[k].None?
    {
      if HasMimeType(clip, MIME_URI_LIST) {
        var item := UrlFromExtra(intent.extras);
        if item.Some? {
          slots[i] := item;
        }
      } else {
        var clipItem := clip.items[i];
        assert SlotReadable(clip, clipItem);
        if HasMimeType(clip, MIME_TEXT_PLAIN) {
          if isValidUrl(clipItem.text.value) {
            var item := UrlFromExtra(intent.extras);
            if item.Some? {
              slots[i] := item;
              continue;
            }
          }
        }
        var item := ItemFromUri(resolver, clipItem.uri);
        if item.Some? {
          slots[i] := item;
        } else {
          slots[i] := ItemFromData(resolver, intent.data);
        }
      }
    }
    items := slots[..];
  }

  /** The clip path yields nothing: the guard is off, or there is no clip data,
      or it has no items. */
  predicate ClipPathEmpty(kitkat: bool, intent: Intent)
  {
    !kitkat || intent.clipData.None? || |intent.clipData.value.items| == 0
  }

  /** Serializing `intent` cannot throw: every clip text that is read is
      present, and the stream extra, if it is consulted, holds a Uri. */
  predicate Serializable(kitkat: bool, intent: Intent)
  {
    && (kitkat && intent.clipData.Some? ==> ClipReadable(intent.clipData.value))
    && (ClipPathEmpty(kitkat, intent) ==> StreamReadable(intent.extras))
  }

  /** The record `toJSONObject(ContentResolver, Intent)` builds. `kitkat`
      stands for the `SDK_INT >= KITKAT` guard on the clip path. */
  function Normalize(resolver: ContentResolver, isValidUrl: string -> bool, kitkat: bool, intent: Intent): Share
    requires Serializable(kitkat, intent)
  {
    var fromClip := if kitkat then ClipSlots(resolver, isValidUrl, intent) else [];
    var items :=
      if fromClip != [] then fromClip
      else match ItemFromExtras(resolver, intent.extras)
        case Some(s) => [Some(s)]
        case None =>
          match ItemFromData(resolver, intent.data)
          case Some(d) => [Some(d)]
          case None => [];
    Share(TranslateAction(intent.action), ReadExitOnSent(intent.extras), items)
  }

  /** `toJSONObject(ContentResolver, Intent)`: the clip slots, else the stream
      item, else the data item, with the action and the exit flag beside them. */
  method ToJSONObject(resolver: ContentResolver, isValidUrl: string -> bool, kitkat: bool, intent: Intent)
    returns (share: Share)
    requires Serializable(kitkat, intent)
    ensures share == Normalize(resolver, isValidUrl, kitkat, intent)
  {
    var items: seq<Option<Item>> := [];
    if kitkat {
      items := ItemsFromClipData(resolver, isValidUrl, intent);
    }
    if |items| == 0 {
      var item := ItemFromExtras(resolver, intent.extras);
      if item.Some? {
        items := items + [item];
      }
    }
    if |items| == 0 {
      var item := ItemFromData(resolver, intent.data);
      if item.Some? {
        items := items + [item];
      }
    }
    share := Share(TranslateAction(intent.action), ReadExitOnSent(intent.extras), items);
  }
}
