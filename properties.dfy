/**
 Properties of the share serializer: what each extractor yields, how the clip
 slots are classified, and how the three extraction paths take precedence.
 */
module SerializerProperties {
  import opened Wrappers
  import opened Android
  import opened Serializer

  /** Translating an action twice gives what translating it once gives. */
  lemma TranslateActionIdempotent(action: Option<string>)
    ensures TranslateAction(TranslateAction(action)) == TranslateAction(action)
  {
  }

  /** "SEND" comes out of the two send actions and of "SEND" itself, and of
      nothing else; likewise for "VIEW". */
  lemma TranslateActionPreimages(action: Option<string>)
    ensures TranslateAction(action) == Some("SEND") <==>
      action in {Some(ACTION_SEND), Some(ACTION_SEND_MULTIPLE), Some("SEND")}
    ensures TranslateAction(action) == Some("VIEW") <==> action in {Some(ACTION_VIEW), Some("VIEW")}
  {
  }

  /** The stream extractor and the data extractor are the same converter,
      applied to the stream Uri and to the data Uri. */
  lemma StreamAndDataShareConverter(resolver: ContentResolver, b: Bundle)
    requires CastsToUri(b, EXTRA_STREAM)
    ensures ItemFromExtras(resolver, Some(b)) == ItemFromData(resolver, GetUri(b, EXTRA_STREAM))
  {
  }

  /** Under `text/uri-list` every slot is the extras link, whatever the clip
      items hold; no slot is a resource, and without extras every slot is empty. */
  lemma UriListSlotsAreExtrasLink(resolver: ContentResolver, isValidUrl: string -> bool, intent: Intent)
    requires intent.clipData.Some? && ClipReadable(intent.clipData.value)
    requires HasMimeType(intent.clipData.value, MIME_URI_LIST)
    ensures forall i :: 0 <= i < |ClipSlots(resolver, isValidUrl, intent)| ==>
      ClipSlots(resolver, isValidUrl, intent)[i] == UrlFromExtra(intent.extras)
    ensures forall slot :: slot in ClipSlots(resolver, isValidUrl, intent) ==> !(slot.Some? && slot.value.Resource?)
    ensures intent.extras.None? ==> forall slot :: slot in ClipSlots(resolver, isValidUrl, intent) ==> slot.None?
  {
  }

  /** Slot `i` depends only on clip item `i`, the clip's MIME types, the
      extras and the data Uri: two intents that agree on those agree on slot `i`,
      however their other clip items differ. */
  lemma ClipSlotIsLocal(
    resolver: ContentResolver, isValidUrl: string -> bool, intent: Intent, other: Intent, i: nat)
    requires intent.clipData.Some? && ClipReadable(intent.clipData.value)
    requires other.clipData.Some? && ClipReadable(other.clipData.value)
    requires i < |intent.clipData.value.items| && i < |other.clipData.value.items|
    requires intent.clipData.value.mimeTypes == other.clipData.value.mimeTypes
    requires intent.clipData.value.items[i] == other.clipData.value.items[i]
    requires intent.extras == other.extras && intent.data == other.data
    ensures ClipSlots(resolver, isValidUrl, intent)[i] == ClipSlots(resolver, isValidUrl, other)[i]
  {
  }

  /** A slot is a link exactly when the clip is a Uri list, or is plain text
      whose item text is a valid URL, and extras are present; the link is then
      the extras link. */
  lemma ClipSlotIsLinkExactly(
    resolver: ContentResolver, isValidUrl: string -> bool,
    clip: ClipData, item: ClipItem, extras: Option<Bundle>, data: Option<Uri>)
    requires SlotReadable(clip, item)
    ensures var slot := ClipSlot(resolver, isValidUrl, clip, item, extras, data);
      (slot.Some? && slot.value.Text?) <==>
        extras.Some? &&
        (HasMimeType(clip, MIME_URI_LIST) ||
         (HasMimeType(clip, MIME_TEXT_PLAIN) && isValidUrl(item.text.value)))
    ensures var slot := ClipSlot(resolver, isValidUrl, clip, item, extras, data);
      slot.Some? && slot.value.Text? ==> slot == UrlFromExtra(extras)
  {
  }

  /** A resource slot never arises under `text/uri-list`; it is built from the
      clip item's own Uri when the item has one, and from the intent's data
      Uri only when it does not. */
  lemma ClipSlotResourceOrigin(
    resolver: ContentResolver, isValidUrl: string -> bool,
    clip: ClipData, item: ClipItem, extras: Option<Bundle>, data: Option<Uri>)
    requires SlotReadable(clip, item)
    ensures var slot := ClipSlot(resolver, isValidUrl, clip, item, extras, data);
      slot.Some? && slot.value.Resource? ==>
        && !HasMimeType(clip, MIME_URI_LIST)
        && (item.uri.Some? ==> slot == ItemFromUri(resolver, item.uri))
        && (item.uri.None? ==> slot == ItemFromData(resolver, data))
  {
  }

  /** A slot stays empty exactly when the clip is a Uri list and there are no
      extras, or when the link branch is not taken and neither the item nor the
      intent carries a Uri. */
  lemma ClipSlotEmptyExactly(
    resolver: ContentResolver, isValidUrl: string -> bool,
    clip: ClipData, item: ClipItem, extras: Option<Bundle>, data: Option<Uri>)
    requires SlotReadable(clip, item)
    ensures ClipSlot(resolver, isValidUrl, clip, item, extras, data).None? <==>
      if HasMimeType(clip, MIME_URI_LIST) then extras.None?
      else
        !(HasMimeType(clip, MIME_TEXT_PLAIN) && isValidUrl(item.text.value) && extras.Some?)
        && item.uri.None? && data.None?
  {
  }

  /** The action and the exit flag do not depend on the items. */
  lemma NormalizeHeader(resolver: ContentResolver, isValidUrl: string -> bool, kitkat: bool, intent: Intent)
    requires Serializable(kitkat, intent)
    ensures Normalize(resolver, isValidUrl, kitkat, intent).action == TranslateAction(intent.action)
    ensures Normalize(resolver, isValidUrl, kitkat, intent).exit == ReadExitOnSent(intent.extras)
  {
  }

  /** When the clip path yields slots, they are the items, empty slots
      included, and nothing is appended. */
  lemma NormalizeClipWins(resolver: ContentResolver, isValidUrl: string -> bool, kitkat: bool, intent: Intent)
    requires Serializable(kitkat, intent)
    requires !ClipPathEmpty(kitkat, intent)
    ensures Normalize(resolver, isValidUrl, kitkat, intent).items == ClipSlots(resolver, isValidUrl, intent)
    ensures |Normalize(resolver, isValidUrl, kitkat, intent).items| == |intent.clipData.value.items|
  {
  }

  /** When the clip path yields slots the stream extra is never read: any
      value put under `EXTRA_STREAM`, even one whose cast to Uri would throw,
      leaves the record unchanged. */
  lemma NormalizeIgnoresStreamAfterClip(
    resolver: ContentResolver, isValidUrl: string -> bool, kitkat: bool, intent: Intent, v: Value)
    requires Serializable(kitkat, intent)
    requires !ClipPathEmpty(kitkat, intent)
    requires intent.extras.Some?
    ensures var changed := intent.(extras := Some(intent.extras.value[EXTRA_STREAM := v]));
      Serializable(kitkat, changed) &&
      Normalize(resolver, isValidUrl, kitkat, changed) == Normalize(resolver, isValidUrl, kitkat, intent)
  {
  }

  /** When the clip path yields nothing, the stream item is taken if there is
      one, else the data item if there is one, else nothing: at most one item,
      and never an empty slot. */
  lemma NormalizeFallback(resolver: ContentResolver, isValidUrl: string -> bool, kitkat: bool, intent: Intent)
    requires Serializable(kitkat, intent)
    requires ClipPathEmpty(kitkat, intent)
    ensures var items := Normalize(resolver, isValidUrl, kitkat, intent).items;
      && |items| <= 1
      && (forall slot :: slot in items ==> slot.Some?)
      && (items == [] <==> ItemFromExtras(resolver, intent.extras).None? && intent.data.None?)
      && (ItemFromExtras(resolver, intent.extras).Some? ==> items == [ItemFromExtras(resolver, intent.extras)])
      && (ItemFromExtras(resolver, intent.extras).None? ==> items == if intent.data.Some? then [ItemFromData(resolver, intent.data)] else [])
  {
  }

  /** Only the clip path leaves empty slots in the record. */
  lemma NormalizeEmptySlotsComeFromClip(resolver: ContentResolver, isValidUrl: string -> bool, kitkat: bool, intent: Intent)
    requires Serializable(kitkat, intent)
    requires None in Normalize(resolver, isValidUrl, kitkat, intent).items
    ensures !ClipPathEmpty(kitkat, intent)
  {
    if ClipPathEmpty(kitkat, intent) {
      NormalizeFallback(resolver, isValidUrl, kitkat, intent);
    }
  }

  /** An intent with no clip data, no extras and no data Uri yields no items
      and the exit flag false. */
  lemma NormalizeEmptyIntent(resolver: ContentResolver, isValidUrl: string -> bool, kitkat: bool, action: Option<string>)
    ensures Normalize(resolver, isValidUrl, kitkat, Intent(action, None, None, None))
      == Share(TranslateAction(action), false, [])
  {
  }

  /** A plain send of text with a subject, but no stream, no clip data and no
      data Uri: the text is not an item, so the record has no items. */
  lemma NormalizeTextSendHasNoItems(resolver: ContentResolver, isValidUrl: string -> bool, kitkat: bool)
    ensures
      var extras := map[EXTRA_TEXT := Str("hello"), EXTRA_SUBJECT := Str("hi")];
      Normalize(resolver, isValidUrl, kitkat, Intent(Some(ACTION_SEND), Some(extras), None, None))
        == Share(Some("SEND"), false, [])
  {
  }

  /** A view of a media Uri: one resource item with the resolver's type and path. */
  lemma NormalizeViewOfMedia(resolver: ContentResolver, isValidUrl: string -> bool, kitkat: bool)
    requires resolver.getType("content://media/42") == Some("image/png")
    requires resolver.realPath("content://media/42") == "/storage/emulated/0/img.png"
    ensures Normalize(resolver, isValidUrl, kitkat, Intent(Some(ACTION_VIEW), None, None, Some("content://media/42")))
      == Share(Some("VIEW"), false, [Some(Resource(Some("image/png"), "content://media/42", "/storage/emulated/0/img.png"))])
  {
  }

  /** A Uri-list clip of two items with link extras: both slots are that link. */
  lemma NormalizeUriListClip(resolver: ContentResolver, isValidUrl: string -> bool, a: ClipItem, b: ClipItem)
    ensures
      var extras := map[EXTRA_TEXT := Str("http://x"), EXTRA_SUBJECT := Str("T"), EXIT_ON_SENT := Flag(true)];
      var clip := ClipData({MIME_URI_LIST}, [a, b]);
      Normalize(resolver, isValidUrl, true, Intent(Some(ACTION_SEND_MULTIPLE), Some(extras), Some(clip), None))
        == Share(Some("SEND"), true, [Some(Text(Some("http://x"), Some("T"))), Some(Text(Some("http://x"), Some("T")))])
  {
  }

  /** A plain-text clip: the item whose text is a valid URL becomes the extras
      link, the item whose text is not falls through to its own Uri. */
  lemma NormalizePlainTextClip(resolver: ContentResolver, isValidUrl: string -> bool)
    requires isValidUrl("http://example.com") && !isValidUrl("not a url")
    ensures
      var extras := map[EXTRA_TEXT := Str("http://example.com")];
      var clip := ClipData({MIME_TEXT_PLAIN},
        [ClipItem(Some("http://example.com"), None), ClipItem(Some("not a url"), Some("content://f"))]);
      Normalize(resolver, isValidUrl, true, Intent(Some(ACTION_SEND), Some(extras), Some(clip), None))
        == Share(Some("SEND"), false,
             [Some(Text(Some("http://example.com"), None)),
              Some(Resource(resolver.getType("content://f"), "content://f", resolver.realPath("content://f")))])
  {
  }
}
